// The goal loop: claim, run one pass, keep a counter of consecutive step errors per goal.
module GoalDriver {
  import opened Models
  import opened DecisionPass

  type GoalId = Uuid

  /** One turn of the loop. `pass` is the outcome of the decision pass run for the claimed goal,
      `blockOk` says whether the update that reports an unexecuted pass succeeds,
      `recoveryOk` whether the update sent afterwards does. */
  datatype Turn =
    | ClaimFailed
    | NothingClaimed
    | Claimed(goal: GoalId, pass: Outcome, blockOk: bool, recoveryOk: bool)

  /** How the step ends: a pass that does not execute blocks its goal, and that update may itself raise. */
  datatype StepEnd = Completed | NeedsHelp | Failed

  function EndOf(t: Turn): StepEnd
    requires t.Claimed?
  {
    match t.pass
    case Clarify => NeedsHelp
    case Http(_) => Failed
    case Crash => Failed
    case Executing(_, _, _) => Completed
    case Escalated(_) => if t.blockOk then Completed else Failed
  }

  datatype GoalStatus = Active | Blocked

  /** An attempted goal update; `ok` is false when the call raised. */
  datatype Update = Update(goal: GoalId, status: GoalStatus, ok: bool)

  /** An error step of the goal: an exception of the pass other than a request for clarification,
      or an escalation that could not be reported. */
  predicate Errs(t: Turn, g: GoalId) {
    t.Claimed? && t.goal == g && (t.pass.Http? || t.pass.Crash? || (t.pass.Escalated? && !t.blockOk))
  }

  predicate Concerns(t: Turn, g: GoalId) {
    t.Claimed? && t.goal == g
  }

  /** Length of the trailing run of error steps of `g`, other goals and failed claims left out. */
  function TrailingErrors(h: seq<Turn>, g: GoalId): nat {
    if h == [] then 0
    else
      var n := |h| - 1;
      if !Concerns(h[n], g) then TrailingErrors(h[..n], g)
      else if Errs(h[n], g) then TrailingErrors(h[..n], g) + 1
      else 0
  }

  /** The limit as it acts: the counter is compared after it was raised, so a limit below one acts as one. */
  function ActingLimit(limit: int): nat {
    if limit < 1 then 1 else limit
  }

  // ---------------------------------------------------------------- one turn

  type Counters = map<GoalId, nat>

  function CountOf(c: Counters, g: GoalId): nat {
    if g in c then c[g] else 0
  }

  /** Counters after one turn. */
  function Step(c: Counters, t: Turn, limit: int): Counters {
    if !t.Claimed? then c
    else if EndOf(t) != Failed then c - {t.goal}
    else
      var count := CountOf(c, t.goal) + 1;
      if count >= limit then c - {t.goal} else c[t.goal := count]
  }

  /** Updates attempted during one turn. */
  function UpdatesOf(c: Counters, t: Turn, limit: int): seq<Update> {
    if !t.Claimed? then []
    else
      (if t.pass.Escalated? then [Update(t.goal, Blocked, t.blockOk)] else [])
      + match EndOf(t)
        case Completed => []
        case NeedsHelp => [Update(t.goal, Blocked, t.recoveryOk)]
        case Failed => [Update(t.goal, if CountOf(c, t.goal) + 1 >= limit then Blocked else Active, t.recoveryOk)]
  }

  function Run(h: seq<Turn>, limit: int): Counters {
    if h == [] then map[] else Step(Run(h[..|h| - 1], limit), h[|h| - 1], limit)
  }

  function Updates(h: seq<Turn>, limit: int): seq<Update> {
    if h == [] then []
    else
      var n := |h| - 1;
      Updates(h[..n], limit) + UpdatesOf(Run(h[..n], limit), h[n], limit)
  }

  // ---------------------------------------------------------------- the driver as it runs

  class Driver {
    var errors: Counters
    const limit: int

    constructor (limit: int)
      ensures this.limit == limit && errors == map[]
    {
      this.limit := limit;
      errors := map[];
    }

    /** The step of a claimed goal: an escalated pass is reported, and a report that raises fails the step. */
    method RunGoalStep(t: Turn) returns (end: StepEnd, sent: seq<Update>)
      requires t.Claimed?
      ensures end == EndOf(t) && sent == if t.pass.Escalated? then [Update(t.goal, Blocked, t.blockOk)] else []
    {
      if t.pass.Clarify? {
        return NeedsHelp, [];
      }
      if t.pass.Http? || t.pass.Crash? {
        return Failed, [];
      }
      if t.pass.Escalated? {
        var report := Update(t.goal, Blocked, t.blockOk);
        if !report.ok {
          return Failed, [report];
        }
        return Completed, [report];
      }
      return Completed, [];
    }

    /** One turn of the loop: the counter is settled before the recovery update, whose exception is swallowed. */
    method TakeTurn(t: Turn) returns (sent: seq<Update>)
      modifies this
      ensures errors == Step(old(errors), t, limit) && sent == UpdatesOf(old(errors), t, limit)
    {
      if !t.Claimed? {
        return [];
      }
      var end;
      end, sent := RunGoalStep(t);
      if end == Completed {
        errors := errors - {t.goal};
      } else if end == NeedsHelp {
        errors := errors - {t.goal};
        sent := sent + [Update(t.goal, Blocked, t.recoveryOk)];
      } else {
        var count := (if t.goal in errors then errors[t.goal] else 0) + 1;
        errors := errors[t.goal := count];
        if count >= limit {
          errors := errors - {t.goal};
          sent := sent + [Update(t.goal, Blocked, t.recoveryOk)];
        } else {
          sent := sent + [Update(t.goal, Active, t.recoveryOk)];
        }
      }
    }

    /** Any finite stretch of the endless loop. */
    method Loop(h: seq<Turn>) returns (sent: seq<Update>)
      requires errors == map[]
      modifies this
      ensures errors == Run(h, limit) && sent == Updates(h, limit)
    {
      sent := [];
      for i := 0 to |h|
        invariant errors == Run(h[..i], limit) && sent == Updates(h[..i], limit)
      {
        assert h[..i + 1][..i] == h[..i];
        var more := TakeTurn(h[i]);
        sent := sent + more;
      }
      assert h[..|h|] == h;
    }
  }

  // ---------------------------------------------------------------- closed form

  lemma Multiple(m: int, d: int)
    requires m >= 1
    ensures d >= 1 ==> m * d >= m
    ensures d <= -1 ==> m * d <= -m
  {
  }

  lemma NextRemainder(n: nat, m: nat)
    requires m >= 1
    ensures (n + 1) % m == if n % m + 1 == m then 0 else n % m + 1
  {
    var q, r, q', r' := n / m, n % m, (n + 1) / m, (n + 1) % m;
    assert n == m * q + r && n + 1 == m * q' + r';
    assert m * (q' - q) == r + 1 - r';
    Multiple(m, q' - q);
  }

  /** One turn of the counter of `g`. */
  lemma StepCount(c: Counters, t: Turn, limit: int, g: GoalId)
    requires g in c ==> c[g] != 0
    ensures var after := Step(c, t, limit);
            && (g in after ==> after[g] != 0)
            && CountOf(after, g) ==
               if !Concerns(t, g) then CountOf(c, g)
               else if !Errs(t, g) || CountOf(c, g) + 1 >= limit then 0
               else CountOf(c, g) + 1
  {
  }

  /** A run one longer leaves the next remainder. */
  lemma NextCount(run: nat, limit: int)
    ensures var m := ActingLimit(limit);
            (run + 1) % m == if run % m + 1 >= limit then 0 else run % m + 1
  {
    NextRemainder(run, ActingLimit(limit));
  }

  lemma TrailingSnoc(h: seq<Turn>, t: Turn, g: GoalId)
    ensures TrailingErrors(h + [t], g) ==
            if !Concerns(t, g) then TrailingErrors(h, g) else if Errs(t, g) then TrailingErrors(h, g) + 1 else 0
  {
    assert (h + [t])[..|h|] == h;
  }

  lemma RunSnoc(h: seq<Turn>, t: Turn, limit: int)
    ensures Run(h + [t], limit) == Step(Run(h, limit), t, limit)
    ensures Updates(h + [t], limit) == Updates(h, limit) + UpdatesOf(Run(h, limit), t, limit)
  {
    assert (h + [t])[..|h|] == h;
  }

  /** After any history the counter of a goal is the length of its trailing error run, modulo the limit,
      and no entry is ever zero: a goal whose remainder is zero has none. */
  lemma {:induction false} CounterClosedForm(h: seq<Turn>, limit: int, g: GoalId)
    ensures CountOf(Run(h, limit), g) == TrailingErrors(h, g) % ActingLimit(limit)
    ensures g in Run(h, limit) ==> Run(h, limit)[g] != 0
    decreases |h|
  {
    if h != [] {
      var n := |h| - 1;
      CounterClosedForm(h[..n], limit, g);
      StepCount(Run(h[..n], limit), h[n], limit, g);
      NextCount(TrailingErrors(h[..n], g), limit);
    }
  }

  /** The last update of an error step: blocked exactly when its run of errors is a multiple of the limit,
      active otherwise. */
  lemma ErrorStepUpdate(h: seq<Turn>, t: Turn, limit: int, g: GoalId)
    requires Errs(t, g)
    ensures var sent := UpdatesOf(Run(h, limit), t, limit);
            sent != [] && sent[|sent| - 1] ==
              Update(g, if TrailingErrors(h + [t], g) % ActingLimit(limit) == 0 then Blocked else Active, t.recoveryOk)
  {
    CounterClosedForm(h, limit, g);
    TrailingSnoc(h, t, g);
    NextCount(TrailingErrors(h, g), limit);
  }

  /** A full run of error steps of the claimed goal, this turn included. */
  predicate FullRun(h: seq<Turn>, t: Turn, limit: int) {
    t.Claimed? && Errs(t, t.goal) && TrailingErrors(h + [t], t.goal) % ActingLimit(limit) == 0
  }

  /** Only an executing pass goes unreported; every update is about the claimed goal; BLOCKED is attempted
      exactly when the pass escalated, asked for clarification, or completed a full run of errors, and it is
      accepted exactly when the report of that kind did not raise. */
  lemma BlockedExactly(h: seq<Turn>, t: Turn, limit: int)
    requires t.Claimed?
    ensures var sent := UpdatesOf(Run(h, limit), t, limit);
            && |sent| <= 2 && (sent == [] <==> t.pass.Executing?)
            && (forall u :: u in sent ==> u.goal == t.goal)
            && ((exists u :: u in sent && u.status == Blocked) <==>
                  t.pass.Escalated? || t.pass.Clarify? || FullRun(h, t, limit))
            && (Update(t.goal, Blocked, true) in sent <==>
                  (t.pass.Escalated? && t.blockOk) || (t.recoveryOk && (t.pass.Clarify? || FullRun(h, t, limit))))
  {
    var sent := UpdatesOf(Run(h, limit), t, limit);
    if Errs(t, t.goal) {
      ErrorStepUpdate(h, t, limit, t.goal);
    }
    assert forall i :: 0 <= i < |sent| ==> sent[i] in sent;
  }

  /** Everything one turn sends, in order: the report of an escalated pass; then, after a clarification, BLOCKED,
      and after an error step, BLOCKED on a full run and ACTIVE otherwise; nothing else. */
  lemma UpdatesExactly(h: seq<Turn>, t: Turn, limit: int)
    ensures var sent := UpdatesOf(Run(h, limit), t, limit);
            if !t.Claimed? then sent == []
            else
              var report := if t.pass.Escalated? then [Update(t.goal, Blocked, t.blockOk)] else [];
              if t.pass.Clarify? then sent == [Update(t.goal, Blocked, t.recoveryOk)]
              else if !Errs(t, t.goal) then sent == report
              else sent == report + [Update(t.goal, if FullRun(h, t, limit) then Blocked else Active, t.recoveryOk)]
  {
    if t.Claimed? && Errs(t, t.goal) {
      ErrorStepUpdate(h, t, limit, t.goal);
    }
  }

  /** ACTIVE is attempted exactly after an error step short of a full run; and a goal whose escalation was reported,
      or that needs a clarification, is left BLOCKED by the last thing sent. */
  lemma ActiveExactly(h: seq<Turn>, t: Turn, limit: int)
    requires t.Claimed?
    ensures var sent := UpdatesOf(Run(h, limit), t, limit);
            && ((exists u :: u in sent && u.status == Active) <==> Errs(t, t.goal) && !FullRun(h, t, limit))
            && |sent| == (if t.pass.Escalated? then 1 else 0) + (if t.pass.Clarify? || Errs(t, t.goal) then 1 else 0)
            && ((t.pass.Escalated? && t.blockOk) || t.pass.Clarify? ==> sent[|sent| - 1].status == Blocked)
  {
    var sent := UpdatesOf(Run(h, limit), t, limit);
    UpdatesExactly(h, t, limit);
    assert Errs(t, t.goal) ==> sent[|sent| - 1] in sent;
  }

  /** The turns of one goal, with every recovery update succeeding. */
  function Own(h: seq<Turn>, g: GoalId): seq<Turn> {
    if h == [] then []
    else
      var n := |h| - 1;
      Own(h[..n], g) + (if Concerns(h[n], g) then [h[n].(recoveryOk := true)] else [])
  }

  /** The statuses attempted for one goal, whether or not the calls raised. */
  function StatusesFor(us: seq<Update>, g: GoalId): seq<GoalStatus> {
    if us == [] then []
    else
      var n := |us| - 1;
      StatusesFor(us[..n], g) + (if us[n].goal == g then [us[n].status] else [])
  }

  lemma StatusesSnoc(us: seq<Update>, u: Update, g: GoalId)
    ensures StatusesFor(us + [u], g) == StatusesFor(us, g) + (if u.goal == g then [u.status] else [])
  {
    assert (us + [u])[..|us|] == us;
  }

  lemma {:induction false} StatusesJoin(us: seq<Update>, vs: seq<Update>, g: GoalId)
    ensures StatusesFor(us + vs, g) == StatusesFor(us, g) + StatusesFor(vs, g)
    decreases |vs|
  {
    if vs == [] {
      assert us + vs == us;
    } else {
      StatusesJoin(us, vs[..|vs| - 1], g);
      assert vs == vs[..|vs| - 1] + [vs[|vs| - 1]];
      StatusesSnoc(vs[..|vs| - 1], vs[|vs| - 1], g);
      StatusesSnoc(us + vs[..|vs| - 1], vs[|vs| - 1], g);
      assert us + vs == us + vs[..|vs| - 1] + [vs[|vs| - 1]];
    }
  }

  lemma {:induction false} OnlyOwnTurnsCount(h: seq<Turn>, g: GoalId)
    ensures TrailingErrors(h, g) == TrailingErrors(Own(h, g), g)
    decreases |h|
  {
    if h != [] {
      var n := |h| - 1;
      OnlyOwnTurnsCount(h[..n], g);
      if Concerns(h[n], g) {
        TrailingSnoc(Own(h[..n], g), h[n].(recoveryOk := true), g);
      } else {
        assert Own(h, g) == Own(h[..n], g);
      }
    }
  }

  /** One turn attempts the same statuses whenever the goal's count is the same. */
  lemma SameAttempts(c: Counters, d: Counters, t: Turn, limit: int, g: GoalId)
    requires Concerns(t, g) && CountOf(c, g) == CountOf(d, g)
    ensures StatusesFor(UpdatesOf(c, t, limit), g) == StatusesFor(UpdatesOf(d, t.(recoveryOk := true), limit), g)
  {
    var us, vs := UpdatesOf(c, t, limit), UpdatesOf(d, t.(recoveryOk := true), limit);
    SameStatuses(us, vs, g);
  }

  lemma {:induction false} SameStatuses(us: seq<Update>, vs: seq<Update>, g: GoalId)
    requires |us| == |vs|
    requires forall i :: 0 <= i < |us| ==> us[i].goal == vs[i].goal && us[i].status == vs[i].status
    ensures StatusesFor(us, g) == StatusesFor(vs, g)
    decreases |us|
  {
    if us != [] {
      SameStatuses(us[..|us| - 1], vs[..|vs| - 1], g);
    }
  }

  lemma {:induction false} NoStatuses(us: seq<Update>, g: GoalId)
    requires forall u :: u in us ==> u.goal != g
    ensures StatusesFor(us, g) == []
    decreases |us|
  {
    if us != [] {
      NoStatuses(us[..|us| - 1], g);
    }
  }

  lemma SameCount(h: seq<Turn>, limit: int, g: GoalId)
    ensures CountOf(Run(h, limit), g) == CountOf(Run(Own(h, g), limit), g)
  {
    CounterClosedForm(h, limit, g);
    CounterClosedForm(Own(h, g), limit, g);
    OnlyOwnTurnsCount(h, g);
  }

  /** Turns of other goals, failed claims and recovery updates that raise change neither a goal's counter nor
      the statuses attempted for it: both are those of its own history with every recovery update accepted. */
  lemma {:induction false} InterleavingIsIrrelevant(h: seq<Turn>, limit: int, g: GoalId)
    ensures CountOf(Run(h, limit), g) == CountOf(Run(Own(h, g), limit), g)
    ensures StatusesFor(Updates(h, limit), g) == StatusesFor(Updates(Own(h, g), limit), g)
    decreases |h|
  {
    SameCount(h, limit, g);
    if h != [] {
      var n := |h| - 1;
      InterleavingIsIrrelevant(h[..n], limit, g);
      if Concerns(h[n], g) {
        OwnTurn(h[..n], Own(h[..n], g), h[n], limit, g);
      } else {
        OtherTurn(Updates(h[..n], limit), Run(h[..n], limit), h[n], limit, g);
        assert Own(h, g) == Own(h[..n], g);
      }
    }
  }

  lemma StatusesGrow(us: seq<Update>, more: seq<Update>, vs: seq<Update>, others: seq<Update>, g: GoalId)
    requires StatusesFor(us, g) == StatusesFor(vs, g) && StatusesFor(more, g) == StatusesFor(others, g)
    ensures StatusesFor(us + more, g) == StatusesFor(vs + others, g)
  {
    StatusesJoin(us, more, g);
    StatusesJoin(vs, others, g);
  }

  lemma OwnTurn(h: seq<Turn>, own: seq<Turn>, t: Turn, limit: int, g: GoalId)
    requires Concerns(t, g) && CountOf(Run(h, limit), g) == CountOf(Run(own, limit), g)
    requires StatusesFor(Updates(h, limit), g) == StatusesFor(Updates(own, limit), g)
    ensures StatusesFor(Updates(h, limit) + UpdatesOf(Run(h, limit), t, limit), g) ==
            StatusesFor(Updates(own + [t.(recoveryOk := true)], limit), g)
  {
    var c, d, u := Run(h, limit), Run(own, limit), t.(recoveryOk := true);
    SameAttempts(c, d, t, limit, g);
    StatusesGrow(Updates(h, limit), UpdatesOf(c, t, limit), Updates(own, limit), UpdatesOf(d, u, limit), g);
    RunSnoc(own, u, limit);
  }

  lemma OtherTurn(us: seq<Update>, c: Counters, t: Turn, limit: int, g: GoalId)
    requires !Concerns(t, g)
    ensures StatusesFor(us + UpdatesOf(c, t, limit), g) == StatusesFor(us, g)
  {
    NoStatuses(UpdatesOf(c, t, limit), g);
    StatusesJoin(us, UpdatesOf(c, t, limit), g);
  }
}
