/** When preflight denies a call (preflight.go, permission.go), from what the
    hooks answer. */
module PreflightDenials {
  import opened Wrappers
  import opened Preflight

  /** The answer states a permission, or is a failure, which asks at least. */
  predicate Explicit(a: Answer) {
    a.HookFailed? || !a.out.permission.Unset?
  }

  predicate FallsBack(a: Answer) {
    !Explicit(a) && a.out.fallback.Deny?
  }

  ghost predicate SomeExplicit(env: Env, p: nat, input: Input, k: nat) {
    exists i: nat :: i < k && IsAsked(env, p, input, i) && Explicit(env.answer(p, i, input))
  }

  ghost predicate SomeFallsBack(env: Env, p: nat, input: Input, k: nat) {
    exists i: nat :: i < k && IsAsked(env, p, input, i) && FallsBack(env.answer(p, i, input))
  }

  /** Nobody states a permission, and some hook's fallback is Deny. */
  ghost predicate FallbackDenies(env: Env, p: nat, input: Input) {
    && Update(env, p, input).None?
    && !SomeExplicit(env, p, input, |env.hooks|) && SomeFallsBack(env, p, input, |env.hooks|)
  }

  /** The arguments that the pass proposes are no object. */
  ghost predicate InvalidUpdate(env: Env, p: nat, input: Input) {
    var update := Update(env, p, input);
    update.Some? && !ValidUpdate(env, Trim(update.value))
  }

  ghost predicate PassDenies(env: Env, p: nat, input: Input) {
    Denied(env, p, input) || FallbackDenies(env, p, input) || InvalidUpdate(env, p, input)
  }

  // ---------------------------------------------------------------- one pass

  lemma OneMoreExplicit(env: Env, p: nat, input: Input, k: nat)
    requires k < |env.hooks|
    ensures SomeExplicit(env, p, input, k + 1) <==>
              SomeExplicit(env, p, input, k) || (IsAsked(env, p, input, k) && Explicit(env.answer(p, k, input)))
  {
  }

  lemma OneMoreFallsBack(env: Env, p: nat, input: Input, k: nat)
    requires k < |env.hooks|
    ensures SomeFallsBack(env, p, input, k + 1) <==>
              SomeFallsBack(env, p, input, k) || (IsAsked(env, p, input, k) && FallsBack(env.answer(p, k, input)))
  {
  }

  predicate DeniesByFallback(s: Scan) {
    s.fallback.Some? && s.fallback.value.permission.Deny?
  }

  lemma AnswerFallsBack(s: Scan, a: Answer, args: string)
    requires s.updated.None? && (s.fallback.Some? ==> Strict(s.fallback.value))
    ensures var s' := ScanAnswer(s, a, args);
            && (s'.decided <==> s.decided || Explicit(a))
            && (DeniesByFallback(s') <==> DeniesByFallback(s) || FallsBack(a))
  {
  }

  lemma {:induction false} FallbackMeans(env: Env, p: nat, input: Input, k: nat)
    requires k <= |env.hooks|
    ensures ScanTo(env, p, input, k).decided <==> SomeExplicit(env, p, input, k)
    ensures DeniesByFallback(ScanTo(env, p, input, k)) <==> SomeFallsBack(env, p, input, k)
    decreases k
  {
    if k > 0 {
      FallbackMeans(env, p, input, k - 1);
      ScanMeans(env, p, input, k - 1);
      ScanSound(env, p, input, k - 1);
      UpdatesBefore(env, p, input, k - 1);
      OneMoreExplicit(env, p, input, k - 1);
      OneMoreFallsBack(env, p, input, k - 1);
      var s := ScanTo(env, p, input, k - 1);
      if s.updated.None? && env.hooks[k - 1] {
        AnswerFallsBack(s, env.answer(p, k - 1, input), input.args);
      }
    }
  }

  /** A Deny of a hook makes the pass one with an explicit decision. */
  lemma DeniedIsExplicit(env: Env, p: nat, input: Input)
    requires Denied(env, p, input)
    ensures SomeExplicit(env, p, input, |env.hooks|)
  {
    var i: nat :| DeniesAt(env, p, input, i);
    assert IsAsked(env, p, input, i);
  }

  /** A pass that settles the call denies it by a hook's Deny or a fallback. */
  lemma SettledDenies(env: Env, p: nat, input: Input)
    requires Update(env, p, input).None? || Denied(env, p, input)
    ensures Settled(ScanTo(env, p, input, |env.hooks|), input.resourceError).permission.Deny?
            <==> Denied(env, p, input) || FallbackDenies(env, p, input)
  {
    PassMeans(env, p, input);
    FallbackMeans(env, p, input, |env.hooks|);
    if Denied(env, p, input) {
      DeniedIsExplicit(env, p, input);
    }
  }

  // ------------------------------------------------------------- all passes

  /** The last pass that preflight gets to. */
  lemma LastPassDenies(env: Env, req: Input, p: nat, current: Input, h: Heard)
    requires p < MaxInputUpdates && PassInput(env, req, p) == Some(Projected(env, p, current)) && PassInput(env, req, p + 1).None?
    ensures Decide(env, p, current, h).decision.permission.Deny? <==> PassDenies(env, p, Projected(env, p, current))
  {
    var input := Projected(env, p, current);
    PassMeans(env, p, input);
    if Update(env, p, input).None? || Denied(env, p, input) {
      SettledDenies(env, p, input);
    }
  }

  /** Pass q is reached and denies. */
  ghost predicate DeniesInPass(env: Env, req: Input, q: nat) {
    PassInput(env, req, q).Some? && PassDenies(env, q, PassInput(env, req, q).value)
  }

  /** From pass p on, some pass denies or the last update is one too many. */
  ghost predicate DeniesFrom(env: Env, req: Input, p: nat) {
    || (exists q: nat :: p <= q < MaxInputUpdates && DeniesInPass(env, req, q))
    || PassInput(env, req, MaxInputUpdates).Some?
  }

  lemma NotBeforeAnother(env: Env, req: Input, p: nat)
    requires PassInput(env, req, p).Some? && PassInput(env, req, p + 1).Some?
    ensures !DeniesInPass(env, req, p)
  {
  }

  lemma LastFrom(env: Env, req: Input, p: nat)
    requires p < MaxInputUpdates && PassInput(env, req, p).Some? && PassInput(env, req, p + 1).None?
    ensures DeniesFrom(env, req, p) <==> DeniesInPass(env, req, p)
  {
    EndsLater(env, req, p + 1, MaxInputUpdates);
    forall q: nat | p < q < MaxInputUpdates
      ensures PassInput(env, req, q).None?
    {
      EndsLater(env, req, p + 1, q);
    }
  }

  lemma NextFrom(env: Env, req: Input, p: nat)
    requires p < MaxInputUpdates && PassInput(env, req, p).Some? && PassInput(env, req, p + 1).Some?
    ensures DeniesFrom(env, req, p) <==> DeniesFrom(env, req, p + 1)
  {
    NotBeforeAnother(env, req, p);
  }

  lemma LastStep(env: Env, req: Input, p: nat, current: Input, h: Heard, call: CallDecision)
    requires p < MaxInputUpdates && Reaches(env, req, p, current) && PassInput(env, req, p + 1).None?
    requires DecidedFrom(env, p, current, h, call)
    ensures call.decision.permission.Deny? <==> DeniesFrom(env, req, p)
  {
    assert PassInput(env, req, p) == Some(Projected(env, p, current)) && call == Decide(env, p, current, h);
    LastPassDenies(env, req, p, current, h);
    LastFrom(env, req, p);
  }

  lemma {:induction false} DenyFrom(env: Env, req: Input, p: nat, current: Input, h: Heard, call: CallDecision)
    requires p <= MaxInputUpdates && Reaches(env, req, p, current) && DecidedFrom(env, p, current, h, call)
    ensures call.decision.permission.Deny? <==> DeniesFrom(env, req, p)
    decreases MaxInputUpdates - p
  {
    assert PassInput(env, req, p) == Some(Projected(env, p, current));
    if p == MaxInputUpdates {
      DecideAtLimit(env, current, h, call);
    } else if PassInput(env, req, p + 1).Some? {
      var next, h' := DecideGoesOn(env, req, p, current, h, call);
      DenyFrom(env, req, p + 1, next, h', call);
      NextFrom(env, req, p);
    } else {
      LastStep(env, req, p, current, h, call);
    }
  }

  /** decideToolCall denies a call if and only if in some pass that it gets to a
      hook that is asked denies, answering or failing, whatever the others say;
      or nobody states a permission and a fallback is Deny; or the arguments
      that the pass proposes are no object; or after the eighth pass there are
      still others to check. */
  lemma DenyMeans(env: Env, req: Input)
    ensures Decide(env, 0, req, Nothing).decision.permission.Deny? <==> DeniesFrom(env, req, 0)
  {
    DenyFrom(env, req, 0, req, Nothing, Decide(env, 0, req, Nothing));
  }

  /** What is neither denied nor cleared asks. */
  lemma ElseAsks(env: Env, req: Input)
    ensures Decide(env, 0, req, Nothing).decision.permission.Ask? <==>
              && !DeniesFrom(env, req, 0)
              && !(exists p: nat, input: Input :: p < MaxInputUpdates && PassInput(env, req, p) == Some(input) && Cleared(env, p, input))
  {
    var call := Decide(env, 0, req, Nothing);
    DenyMeans(env, req);
    DecideFrom(env, req, 0, req, Nothing, call);
    DecisionsAreSafe(env, 0, req, Nothing);
    if p: nat, input: Input :| p < MaxInputUpdates && PassInput(env, req, p) == Some(input) && Cleared(env, p, input) {
      assert ClearedAt(env, req, p);
    }
    if call.decision.permission.Allow? {
      var q :| 0 <= q < MaxInputUpdates && ClearedAt(env, req, q);
      assert PassInput(env, req, q) == Some(PassInput(env, req, q).value);
    }
  }

  // -------------------------------------------------------- an explicit Deny

  /** In some pass that is reached, a hook that is asked denies. */
  ghost predicate ExplicitlyDenied(env: Env, req: Input) {
    exists p: nat :: p < MaxInputUpdates && DeniedInPass(env, req, p)
  }

  ghost predicate DeniedInPass(env: Env, req: Input, p: nat) {
    PassInput(env, req, p).Some? && Denied(env, p, PassInput(env, req, p).value)
  }

  /** An explicit Deny is never overruled: neither Allow nor Ask is left. */
  lemma ExplicitDenyHolds(env: Env, req: Input)
    requires ExplicitlyDenied(env, req)
    ensures Decide(env, 0, req, Nothing).decision.permission.Deny?
  {
    var p: nat :| p < MaxInputUpdates && DeniedInPass(env, req, p);
    assert DeniesInPass(env, req, p);
    DenyMeans(env, req);
  }
}
