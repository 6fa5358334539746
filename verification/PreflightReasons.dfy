/** Whose reason a decision of preflight gives (permission.go, mergeDecision):
    between equally strict answers the first explained one wins. */
module PreflightReasons {
  import opened Wrappers
  import opened Preflight
  import opened PreflightDenials

  /** What an answer amounts to. */
  function Opinion(a: Answer): Decision {
    if a.HookFailed? then FailedDecision(a.out) else HookDecision(a.out)
  }

  predicate Explained(d: Decision) {
    d.reason != "" || d.assessment.Some?
  }

  /** Hook i is asked, and is for this permission. */
  ghost predicate IsFor(env: Env, p: nat, input: Input, i: nat, permission: Permission) {
    IsAsked(env, p, input, i) && Opinion(env.answer(p, i, input)).permission == permission
  }

  /** The first explained opinion for the permission, or a bare one. */
  ghost predicate IsFirstExplained(env: Env, p: nat, input: Input, k: nat, d: Decision) {
    if Explained(d) then exists i: nat :: i < k && GivesFirst(env, p, input, i, d)
    else d == Plain(d.permission, "") && NoneExplained(env, p, input, k, d.permission)
  }

  ghost predicate GivesFirst(env: Env, p: nat, input: Input, i: nat, d: Decision) {
    && IsFor(env, p, input, i, d.permission) && Opinion(env.answer(p, i, input)) == d
    && NoneExplained(env, p, input, i, d.permission)
  }

  ghost predicate NoneExplained(env: Env, p: nat, input: Input, k: nat, permission: Permission) {
    forall j: nat | j < k && IsFor(env, p, input, j, permission) :: !Explained(Opinion(env.answer(p, j, input)))
  }

  /** Nobody asked is stricter. */
  ghost predicate NoneStricter(env: Env, p: nat, input: Input, k: nat, permission: Permission) {
    && (permission.Deny? || forall j: nat | j < k :: !IsFor(env, p, input, j, Deny))
    && (permission.Deny? || permission.Ask? || forall j: nat | j < k :: !IsFor(env, p, input, j, Ask))
  }

  lemma OpinionIsOne(a: Answer)
    ensures Opinion(a).permission.Allow? || Strict(Opinion(a))
  {
  }

  lemma Merges(d: Decision, o: Decision)
    requires (d.permission.Allow? || Strict(d)) && (o.permission.Allow? || Strict(o))
    ensures var m := MergeDecision(d, o);
            && (m == d || m == o)
            && (o.permission == d.permission ==> m == if Explained(d) then d else o)
            && (d.permission.Deny? && !o.permission.Deny? ==> m == d)
            && (o.permission.Deny? && !d.permission.Deny? ==> m == o)
            && (d.permission.Ask? && o.permission.Allow? ==> m == d)
            && (o.permission.Ask? && d.permission.Allow? ==> m == o)
  {
  }

  lemma Bare(a: Answer)
    requires !Explained(Opinion(a))
    ensures Opinion(a) == Plain(Opinion(a).permission, "")
  {
  }

  lemma OneMoreFor(env: Env, p: nat, input: Input, k: nat, d: Decision)
    requires IsAsked(env, p, input, k) && (d.permission.Allow? || Strict(d))
    requires IsFirstExplained(env, p, input, k, d) && NoneStricter(env, p, input, k, d.permission)
    ensures var m := MergeDecision(d, Opinion(env.answer(p, k, input)));
            IsFirstExplained(env, p, input, k + 1, m) && NoneStricter(env, p, input, k + 1, m.permission)
  {
    var o := Opinion(env.answer(p, k, input));
    OpinionIsOne(env.answer(p, k, input));
    Merges(d, o);
    if !Explained(o) { Bare(env.answer(p, k, input)); }
    if MergeDecision(d, o) == o {
      TakesOver(env, p, input, k, d, o);
    } else {
      Stays(env, p, input, k, d, o);
    }
  }

  lemma TakesOver(env: Env, p: nat, input: Input, k: nat, d: Decision, o: Decision)
    requires IsAsked(env, p, input, k) && o == Opinion(env.answer(p, k, input)) && (!Explained(o) ==> o == Plain(o.permission, ""))
    requires IsFirstExplained(env, p, input, k, d) && NoneStricter(env, p, input, k, d.permission)
    requires if o.permission == d.permission then !Explained(d) || d == o
             else o.permission.Deny? || (o.permission.Ask? && d.permission.Allow?)
    requires d.permission.Allow? || Strict(d)
    ensures IsFirstExplained(env, p, input, k + 1, o) && NoneStricter(env, p, input, k + 1, o.permission)
  {
    if o.permission == d.permission && Explained(d) {
      var i: nat :| i < k && GivesFirst(env, p, input, i, d);
      assert i < k + 1;
    } else if Explained(o) {
      assert NoneExplained(env, p, input, k, o.permission);
      assert GivesFirst(env, p, input, k, o);
    }
  }

  lemma Stays(env: Env, p: nat, input: Input, k: nat, d: Decision, o: Decision)
    requires IsAsked(env, p, input, k) && o == Opinion(env.answer(p, k, input)) && o != d
    requires IsFirstExplained(env, p, input, k, d) && NoneStricter(env, p, input, k, d.permission)
    requires (o.permission.Allow? || Strict(o)) && (d.permission.Allow? || Strict(d))
    requires if o.permission == d.permission then Explained(d)
             else d.permission.Deny? || (d.permission.Ask? && o.permission.Allow?)
    ensures IsFirstExplained(env, p, input, k + 1, d) && NoneStricter(env, p, input, k + 1, d.permission)
  {
    if Explained(d) {
      var i: nat :| i < k && GivesFirst(env, p, input, i, d);
      assert i < k + 1;
    }
  }

  lemma ScanAnswerMerges(s: Scan, a: Answer, args: string)
    ensures ScanAnswer(s, a, args).decision == MergeDecision(s.decision, Opinion(a))
  {
  }

  lemma NotAsked(env: Env, p: nat, input: Input, k: nat, d: Decision)
    requires !IsAsked(env, p, input, k) && IsFirstExplained(env, p, input, k, d) && NoneStricter(env, p, input, k, d.permission)
    ensures IsFirstExplained(env, p, input, k + 1, d) && NoneStricter(env, p, input, k + 1, d.permission)
  {
    if Explained(d) {
      var i: nat :| i < k && GivesFirst(env, p, input, i, d);
      assert i < k + 1;
    }
  }

  lemma ScanMerges(env: Env, p: nat, input: Input, k: nat)
    requires k < |env.hooks|
    ensures var d := ScanTo(env, p, input, k).decision;
            && (d.permission.Allow? || Strict(d))
            && ScanTo(env, p, input, k + 1).decision
               == if IsAsked(env, p, input, k) then MergeDecision(d, Opinion(env.answer(p, k, input))) else d
  {
    ScanMeans(env, p, input, k);
    ScanSound(env, p, input, k);
    UpdatesBefore(env, p, input, k);
    ScanAnswerMerges(ScanTo(env, p, input, k), env.answer(p, k, input), input.args);
  }

  /** The merged decision of a pass is the strictest one, with the words of the
      first hook that explained it. */
  lemma {:induction false} FirstExplainedWins(env: Env, p: nat, input: Input, k: nat)
    requires k <= |env.hooks|
    ensures var d := ScanTo(env, p, input, k).decision;
            IsFirstExplained(env, p, input, k, d) && NoneStricter(env, p, input, k, d.permission)
    decreases k
  {
    if k > 0 {
      var d := ScanTo(env, p, input, k - 1).decision;
      FirstExplainedWins(env, p, input, k - 1);
      ScanMerges(env, p, input, k - 1);
      if IsAsked(env, p, input, k - 1) {
        OneMoreFor(env, p, input, k - 1, d);
      } else {
        NotAsked(env, p, input, k - 1, d);
      }
    }
  }

  /** A denied call gives the reason of the first hook that denied it with one,
      if that is a safe code. */
  lemma DenialReason(env: Env, p: nat, input: Input)
    requires Denied(env, p, input)
    ensures exists d: Decision ::
              && IsFirstExplained(env, p, input, |env.hooks|, d) && d.permission.Deny?
              && Settled(ScanTo(env, p, input, |env.hooks|), input.resourceError).reason
                 == (if SafeCode(d.reason) then d.reason else "tool_call_denied")
  {
    var s := ScanTo(env, p, input, |env.hooks|);
    FirstExplainedWins(env, p, input, |env.hooks|);
    PassMeans(env, p, input);
    FallbackMeans(env, p, input, |env.hooks|);
    DeniedIsExplicit(env, p, input);
    assert IsFirstExplained(env, p, input, |env.hooks|, s.decision);
  }

  // ------------------------------------------------- what a pass ends with

  /** `shown` is `d` with its codes made safe. */
  predicate SafeFrom(shown: Decision, d: Decision) {
    && shown.permission == d.permission
    && shown.reason == (if SafeCode(d.reason) then d.reason
                        else if d.permission.Deny? then "tool_call_denied"
                        else if d.reason == "" then "" else "reason_unavailable")
    && match d.assessment
       case None => shown.assessment.None?
       case Some(a) =>
         && shown.assessment.Some? && shown.assessment.value.risk == a.risk
         && shown.assessment.value.reasonCode == if a.reasonCode == "" || SafeCode(a.reasonCode) then a.reasonCode else "reason_unavailable"
  }

  lemma SanitizeMeans(d: Decision)
    ensures SafeFrom(Sanitize(d), d)
  {
  }

  /** Hook i is asked, states no permission, and has this fallback. */
  ghost predicate HasFallback(env: Env, p: nat, input: Input, i: nat, d: Decision) {
    && IsAsked(env, p, input, i) && !Explicit(env.answer(p, i, input))
    && var out := env.answer(p, i, input).out;
       !out.fallback.Unset? && d == Plain(if out.fallback.Deny? then Deny else Ask, out.reason)
  }

  ghost predicate SomeoneFallsBack(env: Env, p: nat, input: Input, k: nat, d: Decision) {
    exists i: nat :: i < k && HasFallback(env, p, input, i, d)
  }

  lemma OneMoreFallback(env: Env, p: nat, input: Input, k: nat, s: Scan)
    requires s.updated.None? && IsAsked(env, p, input, k)
    requires s.fallback.Some? ==> SomeoneFallsBack(env, p, input, k, s.fallback.value)
    ensures var s' := ScanAnswer(s, env.answer(p, k, input), input.args);
            s'.fallback.Some? ==> SomeoneFallsBack(env, p, input, k + 1, s'.fallback.value)
  {
    var s' := ScanAnswer(s, env.answer(p, k, input), input.args);
    if s'.fallback.Some? {
      if s'.fallback == s.fallback {
        var i: nat :| i < k && HasFallback(env, p, input, i, s.fallback.value);
        assert i < k + 1;
      } else {
        assert HasFallback(env, p, input, k, s'.fallback.value);
      }
    }
  }

  lemma {:induction false} FallbackIsSomeones(env: Env, p: nat, input: Input, k: nat)
    requires k <= |env.hooks|
    ensures var s := ScanTo(env, p, input, k);
            s.fallback.Some? ==> SomeoneFallsBack(env, p, input, k, s.fallback.value)
    decreases k
  {
    if k > 0 {
      var s := ScanTo(env, p, input, k - 1);
      FallbackIsSomeones(env, p, input, k - 1);
      ScanMeans(env, p, input, k - 1);
      UpdatesBefore(env, p, input, k - 1);
      if s.updated.None? && env.hooks[k - 1] {
        OneMoreFallback(env, p, input, k - 1, s);
      } else if s.fallback.Some? {
        var i: nat :| i < k - 1 && HasFallback(env, p, input, i, s.fallback.value);
        assert i < k;
      }
    }
  }

  /** What a pass that settles the call says: that the projection failed, unless
      the call is denied; else what the strictest and first explained hook
      said, if one stated a permission; else some hook's fallback. */
  lemma SettledSays(env: Env, p: nat, input: Input)
    requires Update(env, p, input).None? || Denied(env, p, input)
    ensures var shown := Settled(ScanTo(env, p, input, |env.hooks|), input.resourceError);
            if input.resourceError && !Denied(env, p, input) && !FallbackDenies(env, p, input)
            then shown == Plain(Ask, "resource_projection_failed")
            else exists d: Decision ::
              && SafeFrom(shown, d)
              && (|| IsFirstExplained(env, p, input, |env.hooks|, d)
                  || (!SomeExplicit(env, p, input, |env.hooks|) && SomeoneFallsBack(env, p, input, |env.hooks|, d)))
  {
    var s := ScanTo(env, p, input, |env.hooks|);
    SettledDenies(env, p, input);
    FallbackMeans(env, p, input, |env.hooks|);
    FirstExplainedWins(env, p, input, |env.hooks|);
    FallbackIsSomeones(env, p, input, |env.hooks|);
    PassMeans(env, p, input);
    var chosen := if !s.decided && s.fallback.Some? then s.fallback.value else s.decision;
    SettledIs(s, input.resourceError, chosen);
    if !(input.resourceError && !chosen.permission.Deny?) {
      SanitizeMeans(chosen);
    }
  }

  lemma SettledIs(s: Scan, failed: bool, chosen: Decision)
    requires chosen == if !s.decided && s.fallback.Some? then s.fallback.value else s.decision
    ensures if failed && !chosen.permission.Deny? then Settled(s, failed) == Plain(Ask, "resource_projection_failed")
            else Settled(s, failed) == Sanitize(chosen)
    ensures Settled(s, failed).permission.Deny? <==> chosen.permission.Deny?
  {
    CodesOfReasons();
  }
}
