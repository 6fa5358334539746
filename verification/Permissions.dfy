/** Resolving an Ask, and the decisions of a whole turn (permission.go,
    preflight.go). */
module Permissions {
  import opened Wrappers
  import opened Preflight

  /** What a permission hook returns. */
  datatype AskAnswer = AskAnswered(permission: Permission, stop: bool) | AskFailed

  datatype Approval = Granted(permission: Permission) | ApprovalFailed

  /** The permission hooks' answers to one request, in registration order, and
      the approval handler's, if one is installed. */
  datatype AskEnv = AskEnv(hooks: seq<AskAnswer>, approver: Option<Approval>)

  ghost predicate NoneObject(hooks: seq<AskAnswer>) {
    forall i | 0 <= i < |hooks| :: hooks[i].AskAnswered? && (hooks[i].permission.Unset? || hooks[i].permission.Allow?)
  }

  ghost predicate OneAllows(hooks: seq<AskAnswer>) {
    exists i | 0 <= i < |hooks| :: hooks[i].AskAnswered? && hooks[i].permission.Allow?
  }

  /** The only way past an Ask: no hook failed or refused, and a hook or else
      the approval handler gave an explicit Allow. */
  ghost predicate Approved(env: AskEnv) {
    && NoneObject(env.hooks)
    && (OneAllows(env.hooks) || env.approver == Some(Granted(Allow)))
  }

  ghost predicate AsksStop(hooks: seq<AskAnswer>) {
    exists i | 0 <= i < |hooks| :: hooks[i].AskAnswered? && hooks[i].stop
  }

  /** Why a request that was not approved is denied. */
  ghost predicate RefusedFor(env: AskEnv, reason: string) {
    if (exists i :: 0 <= i < |env.hooks| && env.hooks[i].AskFailed?) then reason == "permission_hook_failed"
    else if !NoneObject(env.hooks) then reason == "approval_denied"
    else
      match env.approver
      case None => reason == "approval_required"
      case Some(ApprovalFailed) => reason == "approval_unavailable"
      case Some(Granted(answer)) => reason == if answer.Deny? then "approval_denied" else "invalid_approval"
  }

  /** requestPermission: Allow or Deny, never Ask; and Allow exactly when the
      call was approved. */
  method RequestPermission(env: AskEnv, asked: Decision) returns (decision: Decision, stop: bool)
    ensures decision.permission.Allow? || decision.permission.Deny?
    ensures decision.permission.Allow? <==> Approved(env)
    ensures decision.permission.Allow? ==> decision == asked.(permission := Allow)
    ensures decision.permission.Deny? ==>
              SafeCode(decision.reason) && RefusedFor(env, decision.reason) && decision == asked.(permission := Deny, reason := decision.reason)
    ensures stop <==> AsksStop(env.hooks)
  {
    var allowed, denied, failed := false, false, false;
    stop := false;
    for i := 0 to |env.hooks|
      invariant failed <==> exists k | 0 <= k < i :: env.hooks[k].AskFailed?
      invariant denied <==> exists k | 0 <= k < i :: env.hooks[k].AskAnswered? && !env.hooks[k].permission.Unset? && !env.hooks[k].permission.Allow?
      invariant allowed <==> exists k | 0 <= k < i :: env.hooks[k].AskAnswered? && env.hooks[k].permission.Allow?
      invariant stop <==> exists k | 0 <= k < i :: env.hooks[k].AskAnswered? && env.hooks[k].stop
    {
      match env.hooks[i] {
        case AskFailed => failed := true;
        case AskAnswered(permission, stops) =>
          stop := stop || stops;
          match permission {
            case Unset =>
            case Allow => allowed := true;
            case _ => denied := true;
          }
      }
    }
    var reason := "";
    if failed {
      reason := "permission_hook_failed";
    } else if denied {
      reason := "approval_denied";
    } else if allowed {
      return asked.(permission := Allow), stop;
    } else if env.approver.None? {
      reason := "approval_required";
    } else {
      match env.approver.value {
        case ApprovalFailed => reason := "approval_unavailable";
        case Granted(answer) =>
          match answer {
            case Allow => return asked.(permission := Allow), stop;
            case Deny => reason := "approval_denied";
            case _ => reason := "invalid_approval";
          }
      }
    }
    ApprovalCodes();
    return asked.(permission := Deny, reason := reason), stop;
  }

  lemma ApprovalCodes()
    ensures SafeCode("permission_hook_failed") && SafeCode("approval_denied") && SafeCode("approval_required")
    ensures SafeCode("approval_unavailable") && SafeCode("invalid_approval")
  {
    ApproverCodes();
  }

  lemma ApproverCodes()
    ensures SafeCode("approval_unavailable") && SafeCode("invalid_approval") && SafeCode("approval_denied")
  {
  }

  // --------------------------------------------------------------- a turn

  const RepeatedDenialLimit := 3

  /** One call of a turn: the key under which its denials count, which is that
      of the call the brain proposed; that call; what its start hooks and its
      projection answer; and what its permission request would get. */
  datatype Call = Call(key: nat, input: Input, env: Env, ask: AskEnv)

  function Denials(denials: map<nat, nat>, key: nat): nat {
    if key in denials then denials[key] else 0
  }

  predicate TooOften(denials: map<nat, nat>, call: Call) {
    Denials(denials, call.key) >= RepeatedDenialLimit
  }

  /** What preflight makes of a call: one that was denied too often is denied
      unasked, as the brain proposed it. */
  function First(denials: map<nat, nat>, call: Call): CallDecision {
    if TooOften(denials, call) then CallDecision(call.input, Plain(Deny, "repeated_denial"), NoEffects, [])
    else Decide(call.env, 0, call.input, Nothing)
  }

  lemma FirstDecides(denials: map<nat, nat>, call: Call)
    ensures var d := First(denials, call).decision; d.permission.Allow? || Strict(d)
  {
    DecisionsAreSafe(call.env, 0, call.input, Nothing);
  }

  /** What the start hooks of call i decided. */
  ghost predicate IsFirst(denials: map<nat, nat>, calls: seq<Call>, i: nat, decision: CallDecision)
    requires i < |calls|
  {
    && decision == First(denials, calls[i])
    && (decision.decision.permission.Allow? || Strict(decision.decision))
  }

  /** The first decisions of the turn, in call order. */
  ghost predicate AreFirst(denials: map<nat, nat>, calls: seq<Call>, decisions: seq<CallDecision>) {
    |decisions| <= |calls| && forall i | 0 <= i < |decisions| :: IsFirst(denials, calls, i, decisions[i])
  }

  ghost predicate OneStops(decisions: seq<CallDecision>) {
    exists i | 0 <= i < |decisions| :: decisions[i].fx.stop
  }

  method DecideCall(denials: map<nat, nat>, calls: seq<Call>, i: nat) returns (decision: CallDecision)
    requires i < |calls|
    ensures IsFirst(denials, calls, i, decision)
  {
    FirstDecides(denials, calls[i]);
    if Denials(denials, calls[i].key) >= RepeatedDenialLimit {
      return CallDecision(calls[i].input, Plain(Deny, "repeated_denial"), NoEffects, []);
    }
    decision := DecideToolCall(calls[i].env, calls[i].input);
  }

  /** decideCalls: the start hooks of every call of a turn, and whether one of
      them asked to stop. Nothing is counted before all are decided. */
  method DecideCalls(calls: seq<Call>, denials: map<nat, nat>) returns (decisions: seq<CallDecision>, stop: bool)
    ensures |decisions| == |calls| && AreFirst(denials, calls, decisions)
    ensures stop <==> OneStops(decisions)
  {
    decisions, stop := [], false;
    for i := 0 to |calls|
      invariant |decisions| == i && AreFirst(denials, calls, decisions)
      invariant stop <==> OneStops(decisions)
    {
      var decision := DecideCall(denials, calls, i);
      OneMoreDecided(denials, calls, decisions, decision);
      OneMoreStops(decisions, decision);
      decisions := decisions + [decision];
      stop := stop || decision.fx.stop;
    }
  }

  lemma OneMoreDecided(denials: map<nat, nat>, calls: seq<Call>, decisions: seq<CallDecision>, decision: CallDecision)
    requires AreFirst(denials, calls, decisions) && |decisions| < |calls|
    requires IsFirst(denials, calls, |decisions|, decision)
    ensures AreFirst(denials, calls, decisions + [decision])
  {
    var longer := decisions + [decision];
    forall i | 0 <= i < |longer|
      ensures IsFirst(denials, calls, i, longer[i])
    {
      assert i < |decisions| ==> IsFirst(denials, calls, i, decisions[i]);
    }
  }

  lemma OneMoreStops(decisions: seq<CallDecision>, decision: CallDecision)
    ensures OneStops(decisions + [decision]) <==> OneStops(decisions) || decision.fx.stop
  {
    var longer := decisions + [decision];
    assert longer[|decisions|] == decision;
    if OneStops(decisions) {
      var i :| 0 <= i < |decisions| && decisions[i].fx.stop;
      assert longer[i].fx.stop;
    }
  }

  /** The denials after a turn that decided `allowed` of its calls so far. */
  function CountDenied(denials: map<nat, nat>, calls: seq<Call>, allowed: seq<bool>): map<nat, nat>
    requires |allowed| <= |calls|
  {
    if allowed == [] then denials
    else
      var k := |allowed| - 1;
      CountOne(CountDenied(denials, calls, allowed[..k]), calls[k].key, allowed[k])
  }

  function CountOne(denials: map<nat, nat>, key: nat, allow: bool): map<nat, nat> {
    if allow then denials else denials[key := Denials(denials, key) + 1]
  }

  lemma CountNext(denials: map<nat, nat>, calls: seq<Call>, allowed: seq<bool>, allow: bool)
    requires |allowed| < |calls|
    ensures CountDenied(denials, calls, allowed + [allow]) == CountOne(CountDenied(denials, calls, allowed), calls[|allowed|].key, allow)
  {
    assert (allowed + [allow])[..|allowed|] == allowed;
  }

  /** A call may run: its start hooks allowed it, or they asked and it was
      approved. */
  ghost predicate MayRun(denials: map<nat, nat>, call: Call) {
    || First(denials, call).decision.permission.Allow?
    || (First(denials, call).decision.permission.Ask? && Approved(call.ask))
  }

  // ---------------------------------------------------- repeated denials

  lemma {:induction false} CountGrows(denials: map<nat, nat>, calls: seq<Call>, allowed: seq<bool>, key: nat)
    requires |allowed| <= |calls|
    ensures Denials(CountDenied(denials, calls, allowed), key) >= Denials(denials, key)
    ensures (exists i | 0 <= i < |allowed| :: !allowed[i] && calls[i].key == key) ==>
              Denials(CountDenied(denials, calls, allowed), key) > Denials(denials, key)
  {
    if allowed != [] {
      CountGrows(denials, calls, allowed[..|allowed| - 1], key);
    }
  }

  /** A call that was denied three times is denied for good: it can never run
      again, whatever its hooks and the approval handler would now say. */
  lemma DeniedForGood(denials: map<nat, nat>, calls: seq<Call>, allowed: seq<bool>, later: Call)
    requires |allowed| <= |calls| && TooOften(denials, later)
    ensures !MayRun(denials, later)
    ensures !MayRun(CountDenied(denials, calls, allowed), later)
  {
    CountGrows(denials, calls, allowed, later.key);
  }
}
