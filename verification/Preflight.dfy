/** Preflight of one tool call (preflight.go, permission.go, hooks.go). Hooks,
    projections and the approval handler are arbitrary: each is a function
    from everything it may depend on to its answer. */
module Preflight {
  import opened Wrappers

  datatype Permission = Unset | Allow | Ask | Deny | Other(name: string)

  datatype Assessment = Assessment(risk: string, reasonCode: string)

  datatype Decision = Decision(permission: Permission, reason: string, assessment: Option<Assessment>)

  datatype HookOutput = HookOutput(stop: bool, stopReason: string, systemMessage: string, additionalContext: string)

  datatype StartOutput = StartOutput(
    common: HookOutput, permission: Permission, fallback: Permission, reason: string,
    assessment: Option<Assessment>, updatedInput: string)

  /** A hook may return an error together with an output. */
  datatype Answer = Answered(out: StartOutput) | HookFailed(out: StartOutput)

  datatype Effects = Effects(stop: bool, stopReason: string, context: seq<string>, messages: seq<string>)

  /** The call as a hook sees it; `args` are the raw bytes. */
  datatype Input = Input(id: string, kind: string, args: string, resources: seq<string>, resourceError: bool)

  /** `answer` is what hook i returns in pass p for an input; `project` is the
      tool's resource projection, if it has one, and None in it an error. */
  datatype Env = Env(
    hooks: seq<bool>,
    answer: (nat, nat, Input) -> Answer,
    project: Option<(nat, string) -> Option<seq<string>>>,
    parses: string -> bool)

  datatype CallDecision = CallDecision(input: Input, decision: Decision, fx: Effects, errs: seq<nat>)

  const MaxInputUpdates := 8
  const NoEffects := Effects(false, "", [], [])

  function Plain(permission: Permission, reason: string): Decision {
    Decision(permission, reason, None)
  }

  // ------------------------------------------------------------ decisions

  function Rank(p: Permission): nat {
    match p
    case Ask => 1
    case Deny => 2
    case _ => 0
  }

  function MergeDecision(current: Decision, candidate: Decision): Decision {
    if Rank(candidate.permission) > Rank(current.permission) then candidate
    else if Rank(candidate.permission) == Rank(current.permission) && current.reason == "" && current.assessment.None? then candidate
    else current
  }

  function HookDecision(out: StartOutput): Decision {
    match out.permission
    case Unset => Plain(Allow, "")
    case Other(_) => Plain(Ask, "tool_call_start_uncertain")
    case permission => Decision(permission, out.reason, out.assessment)
  }

  function FallbackDecision(out: StartOutput): Decision {
    Plain(if out.fallback.Deny? then Deny else Ask, out.reason)
  }

  /** A failed hook's output is discarded, except that its Deny holds. */
  function FailedDecision(out: StartOutput): Decision {
    if out.permission.Deny? then Plain(Deny, out.reason) else Plain(Ask, "tool_call_start_unavailable")
  }

  /** ^[a-z][a-z0-9_]{0,63}$ */
  predicate SafeCode(code: string) {
    && 1 <= |code| <= 64 && 'a' <= code[0] <= 'z'
    && forall c | c in code :: 'a' <= c <= 'z' || '0' <= c <= '9' || c == '_'
  }

  function SafeReason(code: string, fallback: string): string {
    if SafeCode(code) then code else fallback
  }

  function Sanitize(d: Decision): Decision {
    var reason :=
      if d.permission.Deny? then SafeReason(d.reason, "tool_call_denied")
      else if d.reason != "" then SafeReason(d.reason, "reason_unavailable")
      else "";
    var assessment :=
      if d.assessment.Some? && d.assessment.value.reasonCode != ""
      then Some(d.assessment.value.(reasonCode := SafeReason(d.assessment.value.reasonCode, "reason_unavailable")))
      else d.assessment;
    Decision(d.permission, reason, assessment)
  }

  /** hookEffects.add. */
  function AddEffects(fx: Effects, out: HookOutput): Effects {
    var stopped := if out.stop && !fx.stop then fx.(stop := true, stopReason := out.stopReason) else fx;
    stopped.(context := if out.additionalContext != "" then stopped.context + [out.additionalContext] else stopped.context,
             messages := if out.systemMessage != "" then stopped.messages + [out.systemMessage] else stopped.messages)
  }

  predicate Space(c: char) {
    c in {' ', '\t', '\n', '\r'} || c as int == 11 || c as int == 12
  }

  function TrimLeft(s: string): string {
    if s != "" && Space(s[0]) then TrimLeft(s[1..]) else s
  }

  function TrimRight(s: string): string
    decreases |s|
  {
    if s != "" && Space(s[|s| - 1]) then TrimRight(s[..|s| - 1]) else s
  }

  function Trim(s: string): string {
    TrimRight(TrimLeft(s))
  }

  // ------------------------------------------------------------- one pass

  /** What one pass over the hooks has gathered. */
  datatype Scan = Scan(decision: Decision, decided: bool, fallback: Option<Decision>, updated: Option<string>)

  const FirstScan := Scan(Decision(Allow, "", None), false, None, None)

  /** The hook proposes other arguments than the ones it was shown. */
  predicate Proposes(out: StartOutput, args: string) {
    out.updatedInput != "" && !out.permission.Deny? && out.updatedInput != args
  }

  function ScanAnswer(s: Scan, a: Answer, args: string): Scan {
    match a
    case HookFailed(out) => s.(decision := MergeDecision(s.decision, FailedDecision(out)), decided := true)
    case Answered(out) =>
      var heard := s.(decision := MergeDecision(s.decision, HookDecision(out)));
      var noted :=
        if !out.permission.Unset? then heard.(decided := true)
        else if !out.fallback.Unset? then
          heard.(fallback := Some(if s.fallback.Some? then MergeDecision(s.fallback.value, FallbackDecision(out)) else FallbackDecision(out)))
        else heard;
      if Proposes(out, args) then noted.(updated := Some(out.updatedInput)) else noted
  }

  /** The first k hooks of pass p; a proposed update ends the pass. */
  function ScanTo(env: Env, p: nat, input: Input, k: nat): Scan
    requires k <= |env.hooks|
  {
    if k == 0 then FirstScan
    else
      var s := ScanTo(env, p, input, k - 1);
      if s.updated.Some? || !env.hooks[k - 1] then s else ScanAnswer(s, env.answer(p, k - 1, input), input.args)
  }

  /** The effects and the failed hooks so far. */
  datatype Heard = Heard(fx: Effects, errs: seq<nat>)

  const Nothing := Heard(NoEffects, [])

  /** What those hooks leave besides a decision, on top of earlier passes. */
  function HeardTo(env: Env, p: nat, input: Input, before: Heard, k: nat): Heard
    requires k <= |env.hooks|
  {
    if k == 0 then before
    else
      var h := HeardTo(env, p, input, before, k - 1);
      if ScanTo(env, p, input, k - 1).updated.Some? || !env.hooks[k - 1] then h
      else
        match env.answer(p, k - 1, input)
        case HookFailed(_) => h.(errs := h.errs + [k])
        case Answered(out) => h.(fx := AddEffects(h.fx, out.common))
  }

  /** A registered projection owns the resources. */
  function Projected(env: Env, p: nat, req: Input): Input {
    match env.project
    case None => req
    case Some(project) =>
      match project(p, req.args)
      case Some(resources) => req.(resources := resources, resourceError := false)
      case None => req.(resources := [], resourceError := true)
  }

  predicate ValidUpdate(env: Env, trimmed: string) {
    env.parses(trimmed) && trimmed != "" && trimmed[0] == '{'
  }

  /** The decision of a pass that proposed nothing, or was denied. */
  function Settled(s: Scan, resourceError: bool): Decision {
    var chosen := if !s.decided && s.fallback.Some? then s.fallback.value else s.decision;
    Sanitize(if resourceError && !chosen.permission.Deny? then Plain(Ask, "resource_projection_failed") else chosen)
  }

  /** decideToolCall from pass p on. */
  function Decide(env: Env, p: nat, req: Input, before: Heard): CallDecision
    decreases MaxInputUpdates - p
  {
    if p >= MaxInputUpdates then CallDecision(req, Plain(Deny, "tool_call_update_limit"), before.fx, before.errs)
    else
      var input := Projected(env, p, req);
      var s := ScanTo(env, p, input, |env.hooks|);
      var h := HeardTo(env, p, input, before, |env.hooks|);
      if s.updated.Some? && !s.decision.permission.Deny? then
        if !ValidUpdate(env, Trim(s.updated.value)) then CallDecision(input, Plain(Deny, "invalid_tool_call_update"), h.fx, h.errs)
        else Decide(env, p + 1, input.(args := Trim(s.updated.value)), h)
      else CallDecision(input, Settled(s, input.resourceError), h.fx, h.errs)
  }

  /** One pass over the start hooks. */
  method RunStartHooks(env: Env, p: nat, input: Input, fx0: Effects, errs0: seq<nat>) returns (s: Scan, fx: Effects, errs: seq<nat>)
    ensures s == ScanTo(env, p, input, |env.hooks|)
    ensures Heard(fx, errs) == HeardTo(env, p, input, Heard(fx0, errs0), |env.hooks|)
  {
    s, fx, errs := FirstScan, fx0, errs0;
    for i := 0 to |env.hooks|
      invariant s == ScanTo(env, p, input, i) && s.updated.None?
      invariant Heard(fx, errs) == HeardTo(env, p, input, Heard(fx0, errs0), i)
    {
      if !env.hooks[i] {
        continue;
      }
      var a := env.answer(p, i, input);
      s := ScanAnswer(s, a, input.args);
      if a.HookFailed? {
        errs := errs + [i + 1];
        continue;
      }
      fx := AddEffects(fx, a.out.common);
      if s.updated.Some? {
        ScanStays(env, p, input, Heard(fx0, errs0), i + 1, |env.hooks|);
        break;
      }
    }
  }

  /** decideToolCall. */
  method DecideToolCall(env: Env, req: Input) returns (call: CallDecision)
    ensures call == Decide(env, 0, req, Nothing)
  {
    var current := req;
    var fx, errs: seq<nat> := NoEffects, [];
    for p := 0 to MaxInputUpdates
      invariant Decide(env, 0, req, Nothing) == Decide(env, p, current, Heard(fx, errs))
    {
      if env.project.Some? {
        current := current.(resources := [], resourceError := false);
        var resources := env.project.value(p, current.args);
        if resources.None? {
          current := current.(resourceError := true);
        } else {
          current := current.(resources := resources.value);
        }
      }
      var s: Scan;
      s, fx, errs := RunStartHooks(env, p, current, fx, errs);
      if s.updated.Some? && !s.decision.permission.Deny? {
        var trimmed := Trim(s.updated.value);
        if !ValidUpdate(env, trimmed) {
          return CallDecision(current, Plain(Deny, "invalid_tool_call_update"), fx, errs);
        }
        current := current.(args := trimmed);
        continue;
      }
      return CallDecision(current, Settled(s, current.resourceError), fx, errs);
    }
    return CallDecision(current, Plain(Deny, "tool_call_update_limit"), fx, errs);
  }

  /** After an update no further hook of the pass is asked. */
  lemma {:induction false} ScanStays(env: Env, p: nat, input: Input, h: Heard, i: nat, k: nat)
    requires i <= k <= |env.hooks| && ScanTo(env, p, input, i).updated.Some?
    ensures ScanTo(env, p, input, k) == ScanTo(env, p, input, i)
    ensures HeardTo(env, p, input, h, k) == HeardTo(env, p, input, h, i)
    decreases k
  {
    if k > i {
      ScanStays(env, p, input, h, i, k - 1);
      ScanStaysOne(env, p, input, h, k);
    }
  }

  lemma ScanStaysOne(env: Env, p: nat, input: Input, h: Heard, k: nat)
    requires 0 < k <= |env.hooks| && ScanTo(env, p, input, k - 1).updated.Some?
    ensures ScanTo(env, p, input, k) == ScanTo(env, p, input, k - 1)
    ensures HeardTo(env, p, input, h, k) == HeardTo(env, p, input, h, k - 1)
  {
  }

  // ------------------------------------------------- what Allow stands for

  /** The hook ran, and raised nothing against these arguments. */
  predicate Quiet(a: Answer, args: string) {
    a.Answered? && (a.out.permission.Unset? || a.out.permission.Allow?) && !Proposes(a.out, args)
  }

  ghost predicate AllQuiet(env: Env, p: nat, input: Input, k: nat)
    requires k <= |env.hooks|
  {
    forall i | 0 <= i < k && env.hooks[i] :: Quiet(env.answer(p, i, input), input.args)
  }

  ghost predicate SomeAllow(env: Env, p: nat, input: Input, k: nat)
    requires k <= |env.hooks|
  {
    exists i | 0 <= i < k && env.hooks[i] :: env.answer(p, i, input).out.permission.Allow?
  }

  ghost predicate SomeFallback(env: Env, p: nat, input: Input, k: nat)
    requires k <= |env.hooks|
  {
    exists i | 0 <= i < k && env.hooks[i] ::
      env.answer(p, i, input).out.permission.Unset? && !env.answer(p, i, input).out.fallback.Unset?
  }

  /** Every start hook ran on exactly these arguments; none failed, asked,
      denied or proposed others; the projection succeeded; and a fallback, if
      any hook set one, was overridden by an explicit Allow. */
  ghost predicate Cleared(env: Env, p: nat, input: Input) {
    && AllQuiet(env, p, input, |env.hooks|)
    && !input.resourceError
    && (SomeFallback(env, p, input, |env.hooks|) ==> SomeAllow(env, p, input, |env.hooks|))
  }

  predicate Strict(d: Decision) {
    d.permission.Ask? || d.permission.Deny?
  }

  lemma {:induction false} ScanSound(env: Env, p: nat, input: Input, k: nat)
    requires k <= |env.hooks|
    ensures var s := ScanTo(env, p, input, k);
            && (Strict(s.decision) || s.decision.permission.Allow?)
            && (s.fallback.Some? ==> Strict(s.fallback.value))
            && ((s.updated.None? && s.decision.permission.Allow?) <==> AllQuiet(env, p, input, k))
    decreases k
  {
    if k > 0 {
      ScanSound(env, p, input, k - 1);
      var s := ScanTo(env, p, input, k - 1);
      if s.updated.None? && env.hooks[k - 1] {
        AnswerSound(s, env.answer(p, k - 1, input), input.args);
      }
    }
  }

  lemma AnswerSound(s: Scan, a: Answer, args: string)
    requires s.updated.None? && (Strict(s.decision) || s.decision.permission.Allow?)
    requires s.fallback.Some? ==> Strict(s.fallback.value)
    ensures var s' := ScanAnswer(s, a, args);
            && (Strict(s'.decision) || s'.decision.permission.Allow?)
            && (s'.fallback.Some? ==> Strict(s'.fallback.value))
            && ((s'.updated.None? && s'.decision.permission.Allow?) <==> s.decision.permission.Allow? && Quiet(a, args))
  {
  }

  lemma {:induction false} ScanQuiet(env: Env, p: nat, input: Input, k: nat)
    requires k <= |env.hooks| && AllQuiet(env, p, input, k)
    ensures var s := ScanTo(env, p, input, k);
            && (s.decided <==> SomeAllow(env, p, input, k))
            && (s.fallback.Some? <==> SomeFallback(env, p, input, k))
    decreases k
  {
    ScanSound(env, p, input, k);
    if k > 0 {
      ScanSound(env, p, input, k - 1);
      ScanQuiet(env, p, input, k - 1);
      if env.hooks[k - 1] {
        assert Quiet(env.answer(p, k - 1, input), input.args);
      }
    }
  }

  /** The pass ends preflight with Allow exactly when the input is cleared. */
  lemma PassAllows(env: Env, p: nat, input: Input)
    ensures var s := ScanTo(env, p, input, |env.hooks|);
            ((s.updated.None? || s.decision.permission.Deny?) && Settled(s, input.resourceError).permission.Allow?)
            <==> Cleared(env, p, input)
  {
    ScanSound(env, p, input, |env.hooks|);
    if AllQuiet(env, p, input, |env.hooks|) {
      ScanQuiet(env, p, input, |env.hooks|);
    }
  }

  // ------------------------------------------------- what hooks ask for

  /** The hook proposes other arguments, which ends its pass. */
  predicate Updates(a: Answer, args: string) {
    a.Answered? && Proposes(a.out, args)
  }

  /** Hook i is asked in pass p: no hook before it proposed other arguments. */
  ghost predicate IsAsked(env: Env, p: nat, input: Input, i: nat) {
    && i < |env.hooks| && env.hooks[i]
    && forall j | 0 <= j < i && env.hooks[j] :: !Updates(env.answer(p, j, input), input.args)
  }

  /** Hook i is asked, and answers or fails with an explicit Deny. */
  ghost predicate DeniesAt(env: Env, p: nat, input: Input, i: nat) {
    IsAsked(env, p, input, i) && env.answer(p, i, input).out.permission.Deny?
  }

  ghost predicate Denied(env: Env, p: nat, input: Input) {
    exists i: nat :: DeniesAt(env, p, input, i)
  }

  /** The arguments that the first hook to propose any proposes, among the
      first k. */
  function UpdateOf(env: Env, p: nat, input: Input, k: nat): Option<string>
    requires k <= |env.hooks|
  {
    if k == 0 then None
    else if UpdateOf(env, p, input, k - 1).Some? then UpdateOf(env, p, input, k - 1)
    else if env.hooks[k - 1] && Updates(env.answer(p, k - 1, input), input.args)
    then Some(env.answer(p, k - 1, input).out.updatedInput)
    else None
  }

  /** The arguments that the pass proposes, if it does. */
  function Update(env: Env, p: nat, input: Input): Option<string> {
    UpdateOf(env, p, input, |env.hooks|)
  }

  /** The input of pass p, if preflight gets that far: every pass before it
      proposed valid other arguments, and no hook of it denied. */
  ghost function PassInput(env: Env, req: Input, p: nat): Option<Input> {
    if p == 0 then Some(Projected(env, 0, req))
    else
      match PassInput(env, req, p - 1)
      case None => None
      case Some(input) =>
        var update := Update(env, p - 1, input);
        if update.Some? && !Denied(env, p - 1, input) && ValidUpdate(env, Trim(update.value))
        then Some(Projected(env, p, input.(args := Trim(update.value))))
        else None
  }

  lemma {:induction false} UpdatesBefore(env: Env, p: nat, input: Input, k: nat)
    requires k <= |env.hooks|
    ensures UpdateOf(env, p, input, k).None? <==>
              forall j | 0 <= j < k && env.hooks[j] :: !Updates(env.answer(p, j, input), input.args)
  {
    if k > 0 {
      UpdatesBefore(env, p, input, k - 1);
    }
  }

  ghost predicate DeniedBelow(env: Env, p: nat, input: Input, k: nat) {
    exists i: nat :: i < k && DeniesAt(env, p, input, i)
  }

  lemma DeniedOneMore(env: Env, p: nat, input: Input, k: nat)
    requires k < |env.hooks|
    ensures DeniedBelow(env, p, input, k + 1) <==> DeniedBelow(env, p, input, k) || DeniesAt(env, p, input, k)
  {
  }

  /** Folding the answers in order finds the first update, and is a Deny exactly
      when some hook that was asked denied, whatever the others say before or
      after it. */
  lemma {:induction false} ScanMeans(env: Env, p: nat, input: Input, k: nat)
    requires k <= |env.hooks|
    ensures ScanTo(env, p, input, k).updated == UpdateOf(env, p, input, k)
    ensures ScanTo(env, p, input, k).decision.permission.Deny? <==> DeniedBelow(env, p, input, k)
    decreases k
  {
    if k > 0 {
      ScanMeans(env, p, input, k - 1);
      ScanSound(env, p, input, k - 1);
      UpdatesBefore(env, p, input, k - 1);
      DeniedOneMore(env, p, input, k - 1);
      var s := ScanTo(env, p, input, k - 1);
      if s.updated.None? && env.hooks[k - 1] {
        AnswerDenies(s, env.answer(p, k - 1, input), input.args);
      }
    }
  }

  lemma AnswerDenies(s: Scan, a: Answer, args: string)
    requires s.updated.None? && (Strict(s.decision) || s.decision.permission.Allow?)
    ensures var s' := ScanAnswer(s, a, args);
            && s'.updated == (if Updates(a, args) then Some(a.out.updatedInput) else None)
            && (s'.decision.permission.Deny? <==> s.decision.permission.Deny? || a.out.permission.Deny?)
  {
  }

  /** The whole pass. */
  lemma PassMeans(env: Env, p: nat, input: Input)
    ensures var s := ScanTo(env, p, input, |env.hooks|);
            s.updated == Update(env, p, input) && (s.decision.permission.Deny? <==> Denied(env, p, input))
  {
    ScanMeans(env, p, input, |env.hooks|);
    if Denied(env, p, input) {
      var i: nat :| DeniesAt(env, p, input, i);
      assert i < |env.hooks|;
    }
  }

  lemma ClearedEnds(env: Env, req: Input, p: nat, input: Input)
    requires PassInput(env, req, p) == Some(input) && Cleared(env, p, input)
    ensures PassInput(env, req, p + 1).None?
  {
    ScanSound(env, p, input, |env.hooks|);
    PassMeans(env, p, input);
  }

  lemma {:induction false} EndsLater(env: Env, req: Input, p: nat, q: nat)
    requires p <= q && PassInput(env, req, p).None?
    ensures PassInput(env, req, q).None?
    decreases q
  {
    if p < q {
      EndsLater(env, req, p, q - 1);
    }
  }

  /** Pass q is reached and clears its input. */
  ghost predicate ClearedAt(env: Env, req: Input, q: nat) {
    PassInput(env, req, q).Some? && Cleared(env, q, PassInput(env, req, q).value)
  }

  /** The decision answers for the passes from p on. */
  ghost predicate Answers(env: Env, req: Input, p: nat, call: CallDecision) {
    && (call.decision.permission.Allow? <==> exists q | p <= q < MaxInputUpdates :: ClearedAt(env, req, q))
    && (forall q | p <= q < MaxInputUpdates && ClearedAt(env, req, q) :: call.input == PassInput(env, req, q).value)
  }

  lemma LastPass(env: Env, req: Input, p: nat, call: CallDecision)
    requires p < MaxInputUpdates && PassInput(env, req, p) == Some(call.input) && PassInput(env, req, p + 1).None?
    requires call.decision.permission.Allow? <==> Cleared(env, p, call.input)
    ensures Answers(env, req, p, call)
  {
    forall q | p < q < MaxInputUpdates
      ensures !ClearedAt(env, req, q)
    {
      EndsLater(env, req, p + 1, q);
    }
    assert ClearedAt(env, req, p) <==> Cleared(env, p, call.input);
  }

  lemma LaterPass(env: Env, req: Input, p: nat, input: Input, call: CallDecision)
    requires p < MaxInputUpdates && PassInput(env, req, p) == Some(input) && PassInput(env, req, p + 1).Some?
    requires Answers(env, req, p + 1, call)
    ensures Answers(env, req, p, call)
  {
    if Cleared(env, p, input) {
      ClearedEnds(env, req, p, input);
      assert false;
    }
  }

  /** `call` is the decision from pass p on, kept folded. */
  ghost predicate DecidedFrom(env: Env, p: nat, current: Input, h: Heard, call: CallDecision) {
    forall q: nat | q == p :: call == Decide(env, q, current, h)
  }

  /** Pass p works on `current`, kept folded. */
  ghost predicate Reaches(env: Env, req: Input, p: nat, current: Input) {
    forall q: nat | q == p :: PassInput(env, req, q) == Some(Projected(env, q, current))
  }

  /** A pass that does not lead to another one ends preflight. */
  lemma DecideEnds(env: Env, req: Input, p: nat, current: Input, h: Heard)
    requires p < MaxInputUpdates && PassInput(env, req, p) == Some(Projected(env, p, current)) && PassInput(env, req, p + 1).None?
    ensures var call := Decide(env, p, current, h);
            call.input == Projected(env, p, current) && (call.decision.permission.Allow? <==> Cleared(env, p, call.input))
  {
    PassAllows(env, p, Projected(env, p, current));
    PassMeans(env, p, Projected(env, p, current));
  }

  lemma DecideGoesOn(env: Env, req: Input, p: nat, current: Input, h: Heard, call: CallDecision) returns (next: Input, h': Heard)
    requires p < MaxInputUpdates && Reaches(env, req, p, current) && PassInput(env, req, p + 1).Some?
    requires DecidedFrom(env, p, current, h, call)
    ensures Reaches(env, req, p + 1, next) && DecidedFrom(env, p + 1, next, h', call)
  {
    assert PassInput(env, req, p) == Some(Projected(env, p, current)) && call == Decide(env, p, current, h);
    var input := Projected(env, p, current);
    PassMeans(env, p, input);
    next := input.(args := Trim(Update(env, p, input).value));
    h' := HeardTo(env, p, input, h, |env.hooks|);
  }

  lemma DecideLast(env: Env, req: Input, p: nat, current: Input, h: Heard, call: CallDecision)
    requires p < MaxInputUpdates && Reaches(env, req, p, current) && PassInput(env, req, p + 1).None?
    requires DecidedFrom(env, p, current, h, call)
    ensures Answers(env, req, p, call)
  {
    assert PassInput(env, req, p) == Some(Projected(env, p, current)) && call == Decide(env, p, current, h);
    DecideEnds(env, req, p, current, h);
    LastPass(env, req, p, call);
  }

  lemma DecideOneMore(env: Env, req: Input, p: nat, current: Input, call: CallDecision)
    requires p < MaxInputUpdates && Reaches(env, req, p, current) && PassInput(env, req, p + 1).Some?
    requires Answers(env, req, p + 1, call)
    ensures Answers(env, req, p, call)
  {
    assert PassInput(env, req, p) == Some(Projected(env, p, current));
    LaterPass(env, req, p, Projected(env, p, current), call);
  }

  lemma DecideAtLimit(env: Env, current: Input, h: Heard, call: CallDecision)
    requires DecidedFrom(env, MaxInputUpdates, current, h, call)
    ensures call.decision == Plain(Deny, "tool_call_update_limit")
  {
    assert call == Decide(env, MaxInputUpdates, current, h);
  }

  lemma {:induction false} DecideFrom(env: Env, req: Input, p: nat, current: Input, h: Heard, call: CallDecision)
    requires p <= MaxInputUpdates && Reaches(env, req, p, current) && DecidedFrom(env, p, current, h, call)
    ensures Answers(env, req, p, call)
    decreases MaxInputUpdates - p
  {
    if p == MaxInputUpdates {
      DecideAtLimit(env, current, h, call);
    } else if PassInput(env, req, p + 1).Some? {
      var next, h' := DecideGoesOn(env, req, p, current, h, call);
      DecideFrom(env, req, p + 1, next, h', call);
      DecideOneMore(env, req, p, current, call);
    } else {
      DecideLast(env, req, p, current, h, call);
    }
  }

  /** decideToolCall is fail-closed and checks the exact arguments that run:
      it allows a call if and only if in one of at most eight passes every
      start hook ran on exactly the returned arguments, none failed, asked,
      denied or proposed different ones, the projection succeeded, and every
      fallback was overridden by an explicit Allow. */
  lemma AllowMeansCleared(env: Env, req: Input)
    ensures var call := Decide(env, 0, req, Nothing);
            && (call.decision.permission.Allow? <==>
                  exists p | 0 <= p < MaxInputUpdates :: PassInput(env, req, p) == Some(call.input) && Cleared(env, p, call.input))
  {
    var call := Decide(env, 0, req, Nothing);
    DecideFrom(env, req, 0, req, Nothing, call);
    AnswersMean(env, req, call);
  }

  lemma AnswersMean(env: Env, req: Input, call: CallDecision)
    requires Answers(env, req, 0, call)
    ensures call.decision.permission.Allow? <==>
              exists p | 0 <= p < MaxInputUpdates :: PassInput(env, req, p) == Some(call.input) && Cleared(env, p, call.input)
  {
    if call.decision.permission.Allow? {
      var q :| 0 <= q < MaxInputUpdates && ClearedAt(env, req, q);
      assert PassInput(env, req, q) == Some(call.input);
    }
    if p :| 0 <= p < MaxInputUpdates && PassInput(env, req, p) == Some(call.input) && Cleared(env, p, call.input) {
      assert ClearedAt(env, req, p);
    }
  }

  lemma PassesBefore(env: Env, req: Input, p: nat)
    requires p <= MaxInputUpdates && PassInput(env, req, MaxInputUpdates).Some?
    ensures PassInput(env, req, p).Some?
  {
    if PassInput(env, req, p).None? {
      EndsLater(env, req, p, MaxInputUpdates);
      assert false;
    }
  }

  lemma {:induction false} LimitFrom(env: Env, req: Input, p: nat, current: Input, h: Heard, call: CallDecision)
    requires p <= MaxInputUpdates && Reaches(env, req, p, current) && DecidedFrom(env, p, current, h, call)
    requires PassInput(env, req, MaxInputUpdates).Some?
    ensures call.decision == Plain(Deny, "tool_call_update_limit")
    decreases MaxInputUpdates - p
  {
    if p == MaxInputUpdates {
      DecideAtLimit(env, current, h, call);
    } else {
      PassesBefore(env, req, p + 1);
      var next, h' := DecideGoesOn(env, req, p, current, h, call);
      LimitFrom(env, req, p + 1, next, h', call);
    }
  }

  /** Hooks that keep rewriting are denied at the limit. */
  lemma UpdateLimitDenies(env: Env, req: Input)
    requires PassInput(env, req, MaxInputUpdates).Some?
    ensures Decide(env, 0, req, Nothing).decision == Plain(Deny, "tool_call_update_limit")
  {
    LimitFrom(env, req, 0, req, Nothing, Decide(env, 0, req, Nothing));
  }

  /** Every decision is Allow, Ask or Deny, and its reason is a safe code: a
      denial always gives one. */
  lemma {:induction false} DecisionsAreSafe(env: Env, p: nat, req: Input, before: Heard)
    ensures var d := Decide(env, p, req, before).decision;
            && (d.permission.Allow? || Strict(d))
            && (d.reason == "" || SafeCode(d.reason)) && (d.permission.Deny? ==> SafeCode(d.reason))
    decreases MaxInputUpdates - p
  {
    if p >= MaxInputUpdates {
      CodesOfUpdates();
    } else {
      var input := Projected(env, p, req);
      var s := ScanTo(env, p, input, |env.hooks|);
      ScanSound(env, p, input, |env.hooks|);
      var h := HeardTo(env, p, input, before, |env.hooks|);
      if s.updated.None? || s.decision.permission.Deny? {
        SettledIsSafe(s, input.resourceError);
      } else if ValidUpdate(env, Trim(s.updated.value)) {
        DecisionsAreSafe(env, p + 1, input.(args := Trim(s.updated.value)), h);
      } else {
        CodesOfUpdates();
      }
    }
  }

  lemma SettledIsSafe(s: Scan, resourceError: bool)
    requires (Strict(s.decision) || s.decision.permission.Allow?) && (s.fallback.Some? ==> Strict(s.fallback.value))
    ensures var d := Settled(s, resourceError);
            && (d.permission.Allow? || Strict(d))
            && (d.reason == "" || SafeCode(d.reason)) && (d.permission.Deny? ==> SafeCode(d.reason))
  {
    CodesOfReasons();
  }

  lemma CodesOfUpdates()
    ensures SafeCode("tool_call_update_limit") && SafeCode("invalid_tool_call_update")
  {
  }

  lemma CodesOfReasons()
    ensures SafeCode("tool_call_denied") && SafeCode("reason_unavailable") && SafeCode("resource_projection_failed")
  {
  }

  /** A stop that a hook asked for is never lost, in whatever pass it was. */
  lemma {:induction false} StopsAdd(env: Env, p: nat, input: Input, before: Heard, k: nat)
    requires k <= |env.hooks|
    ensures var heard := HeardTo(env, p, input, before, k).fx;
            && (before.fx.stop ==> heard.stop && heard.stopReason == before.fx.stopReason)
            && (forall i | 0 <= i < k && StopsAt(env, p, input, i) :: heard.stop)
    decreases k
  {
    if k > 0 {
      StopsAdd(env, p, input, before, k - 1);
      StopHeard(env, p, input, before, k);
    }
  }

  /** Hook i is asked in pass p and wants the agent to stop. */
  ghost predicate StopsAt(env: Env, p: nat, input: Input, i: nat)
    requires i < |env.hooks|
  {
    && env.hooks[i] && ScanTo(env, p, input, i).updated.None?
    && var a := env.answer(p, i, input);
       a.Answered? && a.out.common.stop
  }

  lemma StopHeard(env: Env, p: nat, input: Input, first: Heard, k: nat)
    requires 0 < k <= |env.hooks|
    ensures var before, heard := HeardTo(env, p, input, first, k - 1).fx, HeardTo(env, p, input, first, k).fx;
            && (before.stop ==> heard.stop && heard.stopReason == before.stopReason)
            && (StopsAt(env, p, input, k - 1) ==> heard.stop)
  {
  }

  lemma {:induction false} DecideKeepsStop(env: Env, p: nat, req: Input, before: Heard)
    requires before.fx.stop
    ensures Decide(env, p, req, before).fx.stop
    decreases MaxInputUpdates - p
  {
    if p < MaxInputUpdates {
      var input := Projected(env, p, req);
      var s := ScanTo(env, p, input, |env.hooks|);
      StopsAdd(env, p, input, before, |env.hooks|);
      var h := HeardTo(env, p, input, before, |env.hooks|);
      if s.updated.Some? && !s.decision.permission.Deny? && ValidUpdate(env, Trim(s.updated.value)) {
        DecideKeepsStop(env, p + 1, input.(args := Trim(s.updated.value)), h);
      }
    }
  }
}
