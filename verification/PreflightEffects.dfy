/** What preflight leaves besides its decision (hooks.go, hookEffects.add;
    preflight.go): each asked hook is heard once, in order, in every pass; and
    hooks are shown the resources of exactly the arguments they check. */
module PreflightEffects {
  import opened Wrappers
  import opened Preflight

  // ------------------------------------------------- what the hooks said

  /** The outputs of the first k hooks of a pass that were asked and did not
      fail, in order. */
  ghost function Outputs(env: Env, p: nat, input: Input, k: nat): seq<HookOutput>
    requires k <= |env.hooks|
  {
    if k == 0 then []
    else
      Outputs(env, p, input, k - 1)
      + (if IsAsked(env, p, input, k - 1) && env.answer(p, k - 1, input).Answered? then [env.answer(p, k - 1, input).out.common] else [])
  }

  /** The numbers, from 1, of those that were asked and failed. */
  ghost function Failures(env: Env, p: nat, input: Input, k: nat): seq<nat>
    requires k <= |env.hooks|
  {
    if k == 0 then []
    else
      Failures(env, p, input, k - 1)
      + (if IsAsked(env, p, input, k - 1) && env.answer(p, k - 1, input).HookFailed? then [k] else [])
  }

  function Contexts(outputs: seq<HookOutput>): seq<string> {
    if outputs == [] then []
    else if outputs[0].additionalContext == "" then Contexts(outputs[1..])
    else [outputs[0].additionalContext] + Contexts(outputs[1..])
  }

  function Messages(outputs: seq<HookOutput>): seq<string> {
    if outputs == [] then []
    else if outputs[0].systemMessage == "" then Messages(outputs[1..])
    else [outputs[0].systemMessage] + Messages(outputs[1..])
  }

  /** The reason of the first output that asks to stop. */
  function FirstStop(outputs: seq<HookOutput>): Option<string> {
    if outputs == [] then None
    else if outputs[0].stop then Some(outputs[0].stopReason)
    else FirstStop(outputs[1..])
  }

  /** What `outputs` make of a stop. */
  predicate StopsWith(before: Effects, outputs: seq<HookOutput>, after: Effects) {
    if before.stop then after.stop && after.stopReason == before.stopReason
    else
      match FirstStop(outputs)
      case Some(reason) => after.stop && after.stopReason == reason
      case None => !after.stop && after.stopReason == before.stopReason
  }

  /** `after` is `before` with these outputs and failures added. */
  predicate Hears(before: Heard, outputs: seq<HookOutput>, failures: seq<nat>, after: Heard) {
    && after.errs == before.errs + failures
    && after.fx.context == before.fx.context + Contexts(outputs)
    && after.fx.messages == before.fx.messages + Messages(outputs)
    && StopsWith(before.fx, outputs, after.fx)
  }

  lemma {:induction false} ContextsJoin(xs: seq<HookOutput>, ys: seq<HookOutput>)
    ensures Contexts(xs + ys) == Contexts(xs) + Contexts(ys)
  {
    if xs == [] {
      assert xs + ys == ys;
    } else {
      assert (xs + ys)[1..] == xs[1..] + ys;
      ContextsJoin(xs[1..], ys);
    }
  }

  lemma {:induction false} MessagesJoin(xs: seq<HookOutput>, ys: seq<HookOutput>)
    ensures Messages(xs + ys) == Messages(xs) + Messages(ys)
  {
    if xs == [] {
      assert xs + ys == ys;
    } else {
      assert (xs + ys)[1..] == xs[1..] + ys;
      MessagesJoin(xs[1..], ys);
    }
  }

  lemma {:induction false} FirstStopJoin(xs: seq<HookOutput>, ys: seq<HookOutput>)
    ensures FirstStop(xs + ys) == if FirstStop(xs).Some? then FirstStop(xs) else FirstStop(ys)
  {
    if xs == [] {
      assert xs + ys == ys;
    } else {
      assert (xs + ys)[1..] == xs[1..] + ys;
      FirstStopJoin(xs[1..], ys);
    }
  }

  lemma StopsMore(before: Effects, xs: seq<HookOutput>, between: Effects, ys: seq<HookOutput>, after: Effects)
    requires StopsWith(before, xs, between) && StopsWith(between, ys, after)
    ensures StopsWith(before, xs + ys, after)
  {
    FirstStopJoin(xs, ys);
  }

  lemma HearsMore(before: Heard, xs: seq<HookOutput>, fs: seq<nat>, between: Heard, ys: seq<HookOutput>, gs: seq<nat>, after: Heard)
    requires Hears(before, xs, fs, between) && Hears(between, ys, gs, after)
    ensures Hears(before, xs + ys, fs + gs, after)
  {
    ContextsJoin(xs, ys);
    MessagesJoin(xs, ys);
    StopsMore(before.fx, xs, between.fx, ys, after.fx);
  }

  lemma AddHears(h: Heard, out: HookOutput)
    ensures Hears(h, [out], [], h.(fx := AddEffects(h.fx, out)))
  {
    assert [out][1..] == [];
    assert FirstStop([out]) == if out.stop then Some(out.stopReason) else None;
    assert Contexts([out]) == if out.additionalContext == "" then [] else [out.additionalContext];
    assert Messages([out]) == if out.systemMessage == "" then [] else [out.systemMessage];
  }

  // ------------------------------------------------------------- one pass

  lemma AskedUntilUpdate(env: Env, p: nat, input: Input, k: nat)
    requires k < |env.hooks|
    ensures IsAsked(env, p, input, k) <==> env.hooks[k] && ScanTo(env, p, input, k).updated.None?
  {
    ScanMeans(env, p, input, k);
    UpdatesBefore(env, p, input, k);
  }

  function HearAnswer(h: Heard, a: Answer, k: nat): Heard {
    match a
    case HookFailed(_) => h.(errs := h.errs + [k])
    case Answered(out) => h.(fx := AddEffects(h.fx, out.common))
  }

  lemma OneHeard(env: Env, p: nat, input: Input, before: Heard, k: nat)
    requires 0 < k <= |env.hooks|
    ensures HeardTo(env, p, input, before, k) ==
            if env.hooks[k - 1] && ScanTo(env, p, input, k - 1).updated.None?
            then HearAnswer(HeardTo(env, p, input, before, k - 1), env.answer(p, k - 1, input), k)
            else HeardTo(env, p, input, before, k - 1)
  {
  }

  lemma NothingHeard(h: Heard)
    ensures Hears(h, [], [], h)
  {
  }

  lemma FailureHeard(h: Heard, k: nat)
    ensures Hears(h, [], [k], h.(errs := h.errs + [k]))
  {
  }

  /** One more hook, which is asked or not. */
  lemma HeardNext(before: Heard, outputs: seq<HookOutput>, failures: seq<nat>, h: Heard, asked: bool, a: Answer, k: nat)
    requires Hears(before, outputs, failures, h)
    ensures Hears(before, outputs + (if asked && a.Answered? then [a.out.common] else []),
                  failures + (if asked && a.HookFailed? then [k] else []), if asked then HearAnswer(h, a, k) else h)
  {
    if !asked {
      assert outputs + [] == outputs && failures + [] == failures;
    } else if a.HookFailed? {
      FailureHeard(h, k);
      HearsMore(before, outputs, failures, h, [], [k], HearAnswer(h, a, k));
    } else {
      AddHears(h, a.out.common);
      HearsMore(before, outputs, failures, h, [a.out.common], [], HearAnswer(h, a, k));
    }
  }

  lemma {:induction false} PassHears(env: Env, p: nat, input: Input, before: Heard, k: nat)
    requires k <= |env.hooks|
    ensures Hears(before, Outputs(env, p, input, k), Failures(env, p, input, k), HeardTo(env, p, input, before, k))
    decreases k
  {
    if k == 0 {
      NothingHeard(before);
    } else {
      PassHears(env, p, input, before, k - 1);
      OneHeard(env, p, input, before, k);
      AskedUntilUpdate(env, p, input, k - 1);
      HeardNext(before, Outputs(env, p, input, k - 1), Failures(env, p, input, k - 1), HeardTo(env, p, input, before, k - 1),
                IsAsked(env, p, input, k - 1), env.answer(p, k - 1, input), k);
    }
  }

  // ----------------------------------------------------------- all passes

  /** What is said from pass p on, in the passes that preflight gets to. */
  ghost function SaidFrom(env: Env, req: Input, p: nat): seq<HookOutput>
    decreases MaxInputUpdates - p
  {
    if p >= MaxInputUpdates || PassInput(env, req, p).None? then []
    else Outputs(env, p, PassInput(env, req, p).value, |env.hooks|) + SaidFrom(env, req, p + 1)
  }

  ghost function FailedFrom(env: Env, req: Input, p: nat): seq<nat>
    decreases MaxInputUpdates - p
  {
    if p >= MaxInputUpdates || PassInput(env, req, p).None? then []
    else Failures(env, p, PassInput(env, req, p).value, |env.hooks|) + FailedFrom(env, req, p + 1)
  }

  lemma LastSettles(env: Env, req: Input, p: nat, current: Input, h: Heard)
    requires p < MaxInputUpdates && PassInput(env, req, p) == Some(Projected(env, p, current)) && PassInput(env, req, p + 1).None?
    ensures var call, after := Decide(env, p, current, h), HeardTo(env, p, Projected(env, p, current), h, |env.hooks|);
            call.fx == after.fx && call.errs == after.errs && call.input == Projected(env, p, current)
  {
    PassMeans(env, p, Projected(env, p, current));
  }

  lemma LastHears(env: Env, req: Input, p: nat, current: Input, h: Heard)
    requires p < MaxInputUpdates && PassInput(env, req, p) == Some(Projected(env, p, current)) && PassInput(env, req, p + 1).None?
    ensures var call := Decide(env, p, current, h);
            Hears(h, SaidFrom(env, req, p), FailedFrom(env, req, p), Heard(call.fx, call.errs))
  {
    var input := Projected(env, p, current);
    LastSettles(env, req, p, current, h);
    PassHears(env, p, input, h, |env.hooks|);
    LastSaid(env, req, p, input);
  }

  lemma LastSaid(env: Env, req: Input, p: nat, input: Input)
    requires p < MaxInputUpdates && PassInput(env, req, p) == Some(input) && PassInput(env, req, p + 1).None?
    ensures SaidFrom(env, req, p) == Outputs(env, p, input, |env.hooks|) && FailedFrom(env, req, p) == Failures(env, p, input, |env.hooks|)
  {
    assert SaidFrom(env, req, p + 1) == [] && FailedFrom(env, req, p + 1) == [];
  }

  /** Another pass follows, on the updated arguments. */
  lemma GoesOn(env: Env, req: Input, p: nat, current: Input, h: Heard) returns (next: Input, h': Heard)
    requires p < MaxInputUpdates && PassInput(env, req, p) == Some(Projected(env, p, current)) && PassInput(env, req, p + 1).Some?
    ensures PassInput(env, req, p + 1) == Some(Projected(env, p + 1, next)) && Decide(env, p, current, h) == Decide(env, p + 1, next, h')
    ensures Hears(h, Outputs(env, p, Projected(env, p, current), |env.hooks|), Failures(env, p, Projected(env, p, current), |env.hooks|), h')
  {
    var input := Projected(env, p, current);
    PassMeans(env, p, input);
    PassHears(env, p, input, h, |env.hooks|);
    next := input.(args := Trim(Update(env, p, input).value));
    h' := HeardTo(env, p, input, h, |env.hooks|);
  }

  lemma {:induction false} HearsFrom(env: Env, req: Input, p: nat, current: Input, h: Heard)
    requires p <= MaxInputUpdates && PassInput(env, req, p) == Some(Projected(env, p, current))
    ensures var call := Decide(env, p, current, h);
            Hears(h, SaidFrom(env, req, p), FailedFrom(env, req, p), Heard(call.fx, call.errs))
    decreases MaxInputUpdates - p
  {
    if p == MaxInputUpdates {
      NothingHeard(h);
    } else if PassInput(env, req, p + 1).Some? {
      var next, h' := GoesOn(env, req, p, current, h);
      HearsFrom(env, req, p + 1, next, h');
      var call := Decide(env, p + 1, next, h');
      var input := Projected(env, p, current);
      HearsMore(h, Outputs(env, p, input, |env.hooks|), Failures(env, p, input, |env.hooks|), h',
                SaidFrom(env, req, p + 1), FailedFrom(env, req, p + 1), Heard(call.fx, call.errs));
    } else {
      LastHears(env, req, p, current, h);
    }
  }

  /** Whatever it decides, preflight hands on each context and message that the
      asked hooks gave, in order and in every pass; every hook that failed; and
      a stop if and only if one of them asked for it, with the first reason. */
  lemma EveryHookIsHeard(env: Env, req: Input)
    ensures var call := Decide(env, 0, req, Nothing);
            && call.fx.context == Contexts(SaidFrom(env, req, 0)) && call.fx.messages == Messages(SaidFrom(env, req, 0))
            && call.errs == FailedFrom(env, req, 0)
            && (call.fx.stop <==> FirstStop(SaidFrom(env, req, 0)).Some?)
            && (call.fx.stop ==> FirstStop(SaidFrom(env, req, 0)) == Some(call.fx.stopReason))
  {
    HearsFrom(env, req, 0, req, Nothing);
  }

  // ------------------------------------------------------------ the input

  /** The last pass that preflight gets to, if that is before the limit. */
  ghost predicate IsLast(env: Env, req: Input, p: nat) {
    p < MaxInputUpdates && PassInput(env, req, p).Some? && PassInput(env, req, p + 1).None?
  }

  lemma LastIsOne(env: Env, req: Input, p: nat, last: nat)
    requires p <= last && PassInput(env, req, p + 1).None? && PassInput(env, req, last).Some?
    ensures p == last
  {
    if p < last {
      EndsLater(env, req, p + 1, last);
    }
  }

  lemma DecidesHere(env: Env, req: Input, p: nat, current: Input, h: Heard, call: CallDecision)
    requires p < MaxInputUpdates && Reaches(env, req, p, current) && DecidedFrom(env, p, current, h, call)
    requires PassInput(env, req, p + 1).None?
    ensures PassInput(env, req, p) == Some(call.input)
  {
    assert PassInput(env, req, p) == Some(Projected(env, p, current)) && call == Decide(env, p, current, h);
    LastSettles(env, req, p, current, h);
  }

  lemma {:induction false} DecidesLast(env: Env, req: Input, p: nat, current: Input, h: Heard, call: CallDecision, last: nat)
    requires Reaches(env, req, p, current) && DecidedFrom(env, p, current, h, call)
    requires p <= last && IsLast(env, req, last)
    ensures PassInput(env, req, last) == Some(call.input)
    decreases MaxInputUpdates - p
  {
    if PassInput(env, req, p + 1).Some? {
      assert p != last;
      var next, h' := DecideGoesOn(env, req, p, current, h, call);
      DecidesLast(env, req, p + 1, next, h', call, last);
    } else {
      LastIsOne(env, req, p, last);
      DecidesHere(env, req, p, current, h, call);
    }
  }

  /** The call that is decided is the one that the last pass checked. */
  lemma DecidesWhatItChecked(env: Env, req: Input, last: nat)
    requires IsLast(env, req, last)
    ensures PassInput(env, req, last) == Some(Decide(env, 0, req, Nothing).input)
  {
    DecidesLast(env, req, 0, req, Nothing, Decide(env, 0, req, Nothing), last);
  }

  /** Hooks see the resources that the tool projects from exactly the arguments
      they check; without a projection, those that the request brought. */
  lemma {:induction false} ResourcesAreProjected(env: Env, req: Input, p: nat)
    requires PassInput(env, req, p).Some?
    ensures var input := PassInput(env, req, p).value;
            && input.id == req.id && input.kind == req.kind
            && match env.project
               case None => input.resources == req.resources && input.resourceError == req.resourceError
               case Some(project) =>
                 match project(p, input.args)
                 case Some(resources) => input.resources == resources && !input.resourceError
                 case None => input.resources == [] && input.resourceError
  {
    if p > 0 {
      ResourcesAreProjected(env, req, p - 1);
    }
  }

  // ----------------------------------------------------------- the update

  predicate AllSpace(s: string) {
    forall i | 0 <= i < |s| :: Space(s[i])
  }

  lemma {:induction false} TrimLeftMeans(s: string) returns (k: nat)
    ensures k <= |s| && AllSpace(s[..k]) && TrimLeft(s) == s[k..] && (TrimLeft(s) == "" || !Space(TrimLeft(s)[0]))
  {
    k := 0;
    if s != "" && Space(s[0]) {
      var j := TrimLeftMeans(s[1..]);
      k := j + 1;
      assert s[1..][j..] == s[k..] && s[..k] == [s[0]] + s[1..][..j];
    }
  }

  lemma {:induction false} TrimRightMeans(s: string) returns (k: nat)
    ensures k <= |s| && AllSpace(s[k..]) && TrimRight(s) == s[..k] && (k == 0 || !Space(s[k - 1]))
    decreases |s|
  {
    k := |s|;
    if s != "" && Space(s[|s| - 1]) {
      var n := |s| - 1;
      k := TrimRightMeans(s[..n]);
      assert s[..n][..k] == s[..k] && s[k..] == s[..n][k..] + [s[n]];
    }
  }

  /** An update is passed on without the space around it, and nothing else of
      it is lost. */
  lemma TrimMeans(s: string) returns (i: nat, j: nat)
    ensures i <= j <= |s| && Trim(s) == s[i..j] && AllSpace(s[..i]) && AllSpace(s[j..])
    ensures Trim(s) != "" ==> !Space(s[i]) && !Space(s[j - 1])
  {
    i := TrimLeftMeans(s);
    var k := TrimRightMeans(s[i..]);
    j := i + k;
    assert s[i..][..k] == s[i..j] && s[i..][k..] == s[j..];
  }
}
