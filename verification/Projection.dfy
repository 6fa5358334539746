/** The public view of a conversation: the server's snapshot fold
    (runtime/projection.go, Event.ProjectMessage in runtime/types.go) and the
    client's incremental fold (web/src/projection.ts). */
module Projection {
  import opened Wrappers
  import opened Events

  /** A notice's id is derived from its run; other ids are message ids. */
  datatype MessageKey = Plain(id: Id) | Notice(run: Id)

  datatype Role = User | Assistant | Tool | Noticed

  datatype Message = Message(
    id: MessageKey, conv: Id, inbound: Id, run: Id, role: Role, parts: seq<Part>, final: bool,
    notice: Option<(RunStatus, string)>, createdAt: Time)

  datatype SubmissionView = SubmissionView(
    id: Id, conv: Id, revision: string, status: RunStatus, error: string, acceptedAt: Time)

  datatype ToolView = ToolView(
    call: string, conv: Id, run: Id, inbound: Id, kind: string, arguments: Arguments,
    status: ToolStatus, result: Option<ToolResult>, updatedAt: Time)

  datatype View = View(
    messages: seq<Message>, submissions: seq<SubmissionView>, activeRun: Option<Run>,
    tools: seq<ToolView>, environment: seq<Event>, cursor: nat)

  const EmptyView := View([], [], None, [], [], 0)

  datatype ViewError =
    | ForeignEvent
    | NoInput
    | NoOutput
    | NoResult
    | NoRun
    | NoKey
    | AcceptedTwice
    | NoToolIdentity
    | RecordedTwice
    | NoRequest
    | NoAcceptedInput

  /** The index of the first item that satisfies `p`, or |items|. */
  function FirstIndex<T>(items: seq<T>, p: T -> bool): (i: nat)
    ensures i <= |items|
    ensures i < |items| ==> p(items[i])
    ensures forall k | 0 <= k < i :: !p(items[k])
  {
    if items == [] || p(items[0]) then 0 else 1 + FirstIndex(items[1..], p)
  }

  function SubmissionIndex(items: seq<SubmissionView>, id: Id): nat {
    FirstIndex(items, (s: SubmissionView) => s.id == id)
  }

  function ToolIndex(items: seq<ToolView>, run: Id, call: string): nat {
    FirstIndex(items, (t: ToolView) => t.run == run && t.call == call)
  }

  function Max(a: nat, b: nat): nat {
    if a > b then a else b
  }

  // ------------------------------------------------------------- messages

  function UserPart(part: TextPart): Part {
    if part.kind == "text" then Text(part.text) else Unsupported(part.kind)
  }

  function UserParts(parts: seq<TextPart>): seq<Part> {
    if parts == [] then [] else [UserPart(parts[0])] + UserParts(parts[1..])
  }

  const FailedText := "An error occurred while generating a response. Try again."
  const StoppedText := "Stopped. The response was not finished."

  function OutcomePart(outcome: ToolOutcome): Part {
    ToolResultPart(outcome.call, outcome.kind, outcome.result)
  }

  /** Event.ProjectMessage, for the event types that have a message. */
  function ProjectMessage(e: Event): Result<Message, ViewError>
    requires HasMessage(e)
  {
    match e.body
    case InputAccepted(input) =>
      if e.inbound == NoId then Err(NoInput)
      else Ok(Message(Plain(e.inbound), e.conv, e.inbound, e.run, User, UserParts(input.parts), false, None, e.createdAt))
    case AssistantCommitted(output) =>
      if output.id == NoId then Err(NoOutput)
      else Ok(Message(Plain(output.id), e.conv, e.inbound, e.run, Assistant, output.parts, output.final, None, e.createdAt))
    case ToolOutcomeRecorded(outcome) =>
      if outcome.id == NoId then Err(NoResult)
      else Ok(Message(Plain(outcome.id), e.conv, e.inbound, e.run, Tool, [OutcomePart(outcome)], false, None, e.createdAt))
    case RunFailed(run) =>
      if e.run == NoId then Err(NoRun)
      else Ok(Message(Notice(e.run), e.conv, e.inbound, e.run, Noticed, [Text(FailedText)], false,
                      Some((run.status, run.error)), e.createdAt))
    case RunStopped(run) =>
      if e.run == NoId then Err(NoRun)
      else Ok(Message(Notice(e.run), e.conv, e.inbound, e.run, Noticed, [Text(StoppedText)], false,
                      Some((run.status, run.error)), e.createdAt))
  }

  predicate HasMessage(e: Event) {
    e.body.InputAccepted? || e.body.AssistantCommitted? || e.body.ToolOutcomeRecorded? || e.body.RunFailed? || e.body.RunStopped?
  }

  /** The id of the message an event projects. */
  function MessageKeyOf(e: Event): MessageKey
    requires HasMessage(e)
  {
    match e.body
    case InputAccepted(_) => Plain(e.inbound)
    case AssistantCommitted(output) => Plain(output.id)
    case ToolOutcomeRecorded(outcome) => Plain(outcome.id)
    case _ => Notice(e.run)
  }

  // --------------------------------------------------------- the snapshot

  function AddTools(tools: seq<ToolView>, e: Event, parts: seq<Part>): Result<seq<ToolView>, ViewError>
    decreases parts
  {
    if parts == [] then Ok(tools)
    else if !parts[0].ToolCall? then AddTools(tools, e, parts[1..])
    else if parts[0].call == "" || e.run == NoId then Err(NoToolIdentity)
    else if ToolIndex(tools, e.run, parts[0].call) < |tools| then Err(RecordedTwice)
    else AddTools(tools + [RequestedTool(e, parts[0])], e, parts[1..])
  }

  function RequestedTool(e: Event, part: Part): ToolView
    requires part.ToolCall?
  {
    ToolView(part.call, e.conv, e.run, e.inbound, part.kind, part.arguments, Requested, None, e.createdAt)
  }

  function QueuedView(e: Event): SubmissionView
    requires e.body.InputAccepted?
  {
    SubmissionView(e.inbound, e.conv, e.body.input.revision, Queued, "", e.createdAt)
  }

  /** Moves the submission of a run event to the status of its run. */
  function ProjectRun(view: View, run: Run, active: Option<Run>): Result<View, ViewError> {
    var i := SubmissionIndex(view.submissions, run.inbound);
    if i == |view.submissions| then Err(NoAcceptedInput)
    else Ok(view.(submissions := view.submissions[i := view.submissions[i].(status := run.status, error := run.error)],
                  activeRun := active))
  }

  /** One iteration of ProjectView's loop. */
  function ProjectStep(conv: Id, view: View, e: Event): Result<View, ViewError> {
    if e.conv != conv then Err(ForeignEvent)
    else
      var seen := view.(cursor := Max(view.cursor, e.cursor));
      match e.body
      case InputAccepted(input) =>
        var message :- ProjectMessage(e);
        if input.key == "" then Err(NoKey)
        else if SubmissionIndex(seen.submissions, e.inbound) < |seen.submissions| then Err(AcceptedTwice)
        else Ok(seen.(messages := seen.messages + [message], submissions := seen.submissions + [QueuedView(e)]))
      case AssistantCommitted(output) =>
        var message :- ProjectMessage(e);
        var tools :- AddTools(seen.tools, e, output.parts);
        Ok(seen.(messages := seen.messages + [message], tools := tools))
      case ToolOutcomeRecorded(outcome) =>
        var message :- ProjectMessage(e);
        var i := ToolIndex(seen.tools, e.run, outcome.call);
        if i == |seen.tools| then Err(NoRequest)
        else Ok(seen.(messages := seen.messages + [message],
                      tools := seen.tools[i := Resolved(seen.tools[i], e, outcome)]))
      case RunStarted(run) => ProjectRun(seen, run, Some(run))
      case RunCompleted(run) => ProjectRun(seen, run, None)
      case RunFailed(run) =>
        var notice :- ProjectMessage(e);
        ProjectRun(seen.(messages := seen.messages + [notice]), run, None)
      case RunStopped(run) =>
        var notice :- ProjectMessage(e);
        ProjectRun(seen.(messages := seen.messages + [notice]), run, None)
      case EnvironmentProgress(_, _) => Ok(seen.(environment := seen.environment + [e]))
      case _ => Ok(seen)
  }

  function Resolved(tool: ToolView, e: Event, outcome: ToolOutcome): ToolView {
    tool.(status := outcome.status, result := Some(outcome.result), updatedAt := e.createdAt)
  }

  /** ProjectView as a fold. */
  function Project(conv: Id, events: seq<Event>): Result<View, ViewError>
    decreases |events|
  {
    if events == [] then Ok(EmptyView)
    else
      var view :- Project(conv, events[..|events| - 1]);
      ProjectStep(conv, view, events[|events| - 1])
  }

  // ---------------------------------------------------- the client's fold

  function Upsert<T>(items: seq<T>, item: T, same: T -> bool): seq<T> {
    var i := FirstIndex(items, same);
    if i == |items| then items + [item] else items[i := item]
  }

  function UpsertMessage(items: seq<Message>, item: Message): seq<Message> {
    Upsert(items, item, (m: Message) => m.id == item.id)
  }

  function UpsertSubmission(items: seq<SubmissionView>, item: SubmissionView): seq<SubmissionView> {
    Upsert(items, item, (s: SubmissionView) => s.id == item.id)
  }

  function UpsertToolCall(items: seq<ToolView>, item: ToolView): seq<ToolView> {
    Upsert(items, item, (t: ToolView) => t.run == item.run && t.call == item.call)
  }

  /** Absent arguments show as an empty object. */
  function ShownArguments(arguments: Arguments): Arguments {
    if arguments.Missing? then Object("{}") else arguments
  }

  function UpsertTools(tools: seq<ToolView>, e: Event, parts: seq<Part>): seq<ToolView>
    decreases parts
  {
    if parts == [] then tools
    else if !parts[0].ToolCall? || parts[0].call == "" then UpsertTools(tools, e, parts[1..])
    else
      var tool := RequestedTool(e, parts[0]);
      UpsertTools(UpsertToolCall(tools, tool.(arguments := ShownArguments(tool.arguments))), e, parts[1..])
  }

  function ResolveAll(tools: seq<ToolView>, e: Event, outcome: ToolOutcome): seq<ToolView> {
    if tools == [] then []
    else
      var first := if tools[0].run == e.run && tools[0].call == outcome.call then Resolved(tools[0], e, outcome) else tools[0];
      [first] + ResolveAll(tools[1..], e, outcome)
  }

  function ApplyNotice(view: View, e: Event, run: Run, status: RunStatus, text: string): View {
    if e.run == NoId then view
    else
      view.(messages := UpsertMessage(view.messages,
                                      Message(Notice(e.run), e.conv, e.inbound, e.run, Noticed, [Text(text)], false,
                                              Some((status, run.error)), e.createdAt)))
  }

  function ApplyRun(view: View, run: Run, active: Option<Run>): View {
    var i := SubmissionIndex(view.submissions, run.inbound);
    var moved := view.(activeRun := active);
    if i == |view.submissions| then moved
    else
      moved.(submissions := UpsertSubmission(view.submissions,
                                             view.submissions[i].(status := run.status, error := run.error)))
  }

  /** applyEvent. It has no errors: what it cannot use, it skips. */
  function ApplyEvent(view: View, e: Event): View {
    var seen := if e.cursor > view.cursor then view.(cursor := e.cursor) else view;
    match e.body
    case InputAccepted(input) =>
      if e.inbound == NoId then seen
      else
        seen.(messages := UpsertMessage(seen.messages,
                                        Message(Plain(e.inbound), e.conv, e.inbound, e.run, User, UserParts(input.parts),
                                                false, None, e.createdAt)),
              submissions := UpsertSubmission(seen.submissions, QueuedView(e)))
    case AssistantCommitted(output) =>
      seen.(messages := UpsertMessage(seen.messages,
                                      Message(Plain(output.id), e.conv, e.inbound, e.run, Assistant, output.parts,
                                              output.final, None, e.createdAt)),
            tools := UpsertTools(seen.tools, e, output.parts))
    case ToolOutcomeRecorded(outcome) =>
      seen.(messages := UpsertMessage(seen.messages,
                                      Message(Plain(outcome.id), e.conv, e.inbound, e.run, Tool, [OutcomePart(outcome)],
                                              false, None, e.createdAt)),
            tools := ResolveAll(seen.tools, e, outcome))
    case RunStarted(run) => ApplyRun(seen, run, Some(run))
    case RunCompleted(run) => ApplyRun(seen, run, None)
    case RunFailed(run) => ApplyRun(ApplyNotice(seen, e, run, Failed, FailedText), run, None)
    case RunStopped(run) => ApplyRun(ApplyNotice(seen, e, run, Stopped, StoppedText), run, None)
    case EnvironmentProgress(_, _) =>
      if e.cursor == 0 || (exists entry | entry in seen.environment :: entry.cursor == e.cursor) then seen
      else seen.(environment := seen.environment + [e])
    case _ => seen
  }

  function ApplyAll(view: View, events: seq<Event>): View
    decreases |events|
  {
    if events == [] then view
    else ApplyEvent(ApplyAll(view, events[..|events| - 1]), events[|events| - 1])
  }

  // ------------------------------------------------ ProjectView as a loop

  ghost predicate IndexesSubmissions(index: map<Id, nat>, items: seq<SubmissionView>) {
    forall id :: if id in index then index[id] == SubmissionIndex(items, id) < |items| else SubmissionIndex(items, id) == |items|
  }

  ghost predicate IndexesTools(index: map<(Id, string), nat>, items: seq<ToolView>) {
    forall run: Id, call: string ::
      if (run, call) in index then index[(run, call)] == ToolIndex(items, run, call) < |items|
      else ToolIndex(items, run, call) == |items|
  }

  lemma {:induction false} FirstIndexSnoc<T>(items: seq<T>, item: T, p: T -> bool)
    ensures FirstIndex(items + [item], p) ==
            if FirstIndex(items, p) < |items| then FirstIndex(items, p) else if p(item) then |items| else |items| + 1
  {
    if items != [] {
      assert (items + [item])[1..] == items[1..] + [item];
      FirstIndexSnoc(items[1..], item, p);
    }
  }

  /** Replacing an item by one that `p` does not tell apart. */
  lemma FirstIndexUpdate<T>(items: seq<T>, i: nat, item: T, p: T -> bool)
    requires i < |items| && p(item) == p(items[i])
    ensures FirstIndex(items[i := item], p) == FirstIndex(items, p)
  {
    assert forall k | 0 <= k < |items| :: p(items[i := item][k]) == p(items[k]);
  }

  lemma SubmissionAdded(index: map<Id, nat>, items: seq<SubmissionView>, item: SubmissionView)
    requires IndexesSubmissions(index, items) && item.id !in index
    ensures IndexesSubmissions(index[item.id := |items|], items + [item])
  {
    forall id
      ensures SubmissionIndex(items + [item], id) ==
              if SubmissionIndex(items, id) < |items| then SubmissionIndex(items, id)
              else if item.id == id then |items| else |items| + 1
    {
      FirstIndexSnoc(items, item, (s: SubmissionView) => s.id == id);
    }
  }

  lemma SubmissionMoved(index: map<Id, nat>, items: seq<SubmissionView>, i: nat, item: SubmissionView)
    requires IndexesSubmissions(index, items) && i < |items| && item.id == items[i].id
    ensures IndexesSubmissions(index, items[i := item])
  {
    forall id
      ensures SubmissionIndex(items[i := item], id) == SubmissionIndex(items, id)
    {
      FirstIndexUpdate(items, i, item, (s: SubmissionView) => s.id == id);
    }
  }

  lemma ToolAdded(index: map<(Id, string), nat>, items: seq<ToolView>, item: ToolView)
    requires IndexesTools(index, items) && (item.run, item.call) !in index
    ensures IndexesTools(index[(item.run, item.call) := |items|], items + [item])
  {
    forall run, call
      ensures ToolIndex(items + [item], run, call) ==
              if ToolIndex(items, run, call) < |items| then ToolIndex(items, run, call)
              else if item.run == run && item.call == call then |items| else |items| + 1
    {
      FirstIndexSnoc(items, item, (t: ToolView) => t.run == run && t.call == call);
    }
  }

  lemma ToolMoved(index: map<(Id, string), nat>, items: seq<ToolView>, i: nat, item: ToolView)
    requires IndexesTools(index, items) && i < |items| && item.run == items[i].run && item.call == items[i].call
    ensures IndexesTools(index, items[i := item])
  {
    forall run, call
      ensures ToolIndex(items[i := item], run, call) == ToolIndex(items, run, call)
    {
      FirstIndexUpdate(items, i, item, (t: ToolView) => t.run == run && t.call == call);
    }
  }

  lemma {:induction false} ProjectNext(conv: Id, events: seq<Event>, i: nat)
    requires i < |events|
    ensures Project(conv, events[..i + 1]) ==
            match Project(conv, events[..i])
            case Ok(view) => ProjectStep(conv, view, events[i])
            case Err(error) => Err(error)
  {
    assert events[..i + 1][..i] == events[..i];
  }

  lemma {:induction false} ProjectStuck(conv: Id, events: seq<Event>, i: nat)
    requires i <= |events| && Project(conv, events[..i]).Err?
    ensures Project(conv, events) == Project(conv, events[..i])
    decreases |events|
  {
    if i < |events| {
      var n := |events| - 1;
      assert events[..n][..i] == events[..i];
      ProjectStuck(conv, events[..n], i);
    } else {
      assert events[..i] == events;
    }
  }

  /** The inner loop over the parts of an assistant output. */
  method RecordTools(tools: seq<ToolView>, index: map<(Id, string), nat>, e: Event, parts: seq<Part>)
    returns (r: Result<(seq<ToolView>, map<(Id, string), nat>), ViewError>)
    requires IndexesTools(index, tools)
    ensures r.Ok? <==> AddTools(tools, e, parts).Ok?
    ensures r.Ok? ==> r.value.0 == AddTools(tools, e, parts).value && IndexesTools(r.value.1, r.value.0)
    ensures r.Err? ==> r.error == AddTools(tools, e, parts).error
  {
    var items, keys: map<(Id, string), nat> := tools, index;
    assert parts[0..] == parts;
    for i := 0 to |parts|
      invariant AddTools(tools, e, parts) == AddTools(items, e, parts[i..])
      invariant IndexesTools(keys, items)
    {
      assert parts[i..][1..] == parts[i + 1..];
      var part := parts[i];
      if part.ToolCall? {
        var key := (e.run, part.call);
        if part.call == "" || e.run == NoId {
          return Err(NoToolIdentity);
        }
        if key in keys {
          return Err(RecordedTwice);
        }
        ToolAdded(keys, items, RequestedTool(e, part));
        keys := keys[key := |items|];
        items := items + [RequestedTool(e, part)];
      }
    }
    return Ok((items, keys));
  }

  /** A content event, in the loop of ProjectView. */
  method ProjectContent(view: View, submissions: map<Id, nat>, tools: map<(Id, string), nat>, e: Event)
    returns (r: Result<(View, map<Id, nat>, map<(Id, string), nat>), ViewError>)
    requires IndexesSubmissions(submissions, view.submissions) && IndexesTools(tools, view.tools)
    requires e.body.InputAccepted? || e.body.AssistantCommitted? || e.body.ToolOutcomeRecorded?
    requires e.cursor <= view.cursor
    ensures IndexedStep(r, ProjectStep(e.conv, view, e))
  {
    var message :- ProjectMessage(e);
    var next := view.(messages := view.messages + [message]);
    match e.body {
      case InputAccepted(input) =>
        if input.key == "" {
          return Err(NoKey);
        }
        if e.inbound in submissions {
          return Err(AcceptedTwice);
        }
        SubmissionAdded(submissions, view.submissions, QueuedView(e));
        return Ok((next.(submissions := view.submissions + [QueuedView(e)]),
                   submissions[e.inbound := |view.submissions|], tools));
      case AssistantCommitted(output) =>
        var recorded :- RecordTools(view.tools, tools, e, output.parts);
        return Ok((next.(tools := recorded.0), submissions, recorded.1));
      case ToolOutcomeRecorded(outcome) =>
        var key := (e.run, outcome.call);
        if key !in tools {
          return Err(NoRequest);
        }
        var at := tools[key];
        ToolMoved(tools, view.tools, at, Resolved(view.tools[at], e, outcome));
        return Ok((next.(tools := view.tools[at := Resolved(view.tools[at], e, outcome)]), submissions, tools));
    }
  }

  /** A run event, in the loop of ProjectView. */
  method ProjectRunEvent(view: View, submissions: map<Id, nat>, e: Event) returns (r: Result<View, ViewError>)
    requires IndexesSubmissions(submissions, view.submissions)
    requires e.body.RunStarted? || e.body.RunCompleted? || e.body.RunFailed? || e.body.RunStopped?
    requires e.cursor <= view.cursor
    ensures r == ProjectStep(e.conv, view, e)
    ensures r.Ok? ==> r.value.tools == view.tools && IndexesSubmissions(submissions, r.value.submissions)
  {
    var next := view;
    if e.body.RunFailed? || e.body.RunStopped? {
      var notice :- ProjectMessage(e);
      next := next.(messages := next.messages + [notice]);
    }
    var run := e.body.run;
    if run.inbound !in submissions {
      return Err(NoAcceptedInput);
    }
    var at := submissions[run.inbound];
    var moved := view.submissions[at].(status := run.status, error := run.error);
    SubmissionMoved(submissions, view.submissions, at, moved);
    next := next.(submissions := next.submissions[at := moved]);
    if e.body.RunStarted? {
      next := next.(activeRun := Some(run));
    } else {
      next := next.(activeRun := None);
    }
    return Ok(next);
  }

  /** `r` is the step's result, with lookup maps that index it. */
  ghost predicate IndexedStep(r: Result<(View, map<Id, nat>, map<(Id, string), nat>), ViewError>, step: Result<View, ViewError>) {
    match step
    case Ok(view) => r.Ok? && r.value.0 == view && IndexesSubmissions(r.value.1, view.submissions) && IndexesTools(r.value.2, view.tools)
    case Err(error) => r == Err(error)
  }

  lemma SeenFirst(conv: Id, view: View, e: Event)
    ensures ProjectStep(conv, view.(cursor := Max(view.cursor, e.cursor)), e) == ProjectStep(conv, view, e)
  {
  }

  /** ProjectView with its two lookup maps computes the fold. */
  method ProjectView(conv: Id, events: seq<Event>) returns (r: Result<View, ViewError>)
    ensures r == Project(conv, events)
  {
    var view := EmptyView;
    var submissions: map<Id, nat> := map[];
    var tools: map<(Id, string), nat> := map[];
    for i := 0 to |events|
      invariant Project(conv, events[..i]) == Ok(view)
      invariant IndexesSubmissions(submissions, view.submissions)
      invariant IndexesTools(tools, view.tools)
    {
      ProjectNext(conv, events, i);
      if Project(conv, events[..i + 1]).Err? {
        ProjectStuck(conv, events, i + 1);
      }
      var e := events[i];
      if e.conv != conv {
        return Err(ForeignEvent);
      }
      SeenFirst(conv, view, e);
      if e.cursor > view.cursor {
        view := view.(cursor := e.cursor);
      }
      if e.body.InputAccepted? || e.body.AssistantCommitted? || e.body.ToolOutcomeRecorded? {
        var content :- ProjectContent(view, submissions, tools, e);
        view, submissions, tools := content.0, content.1, content.2;
      } else if e.body.RunStarted? || e.body.RunCompleted? || e.body.RunFailed? || e.body.RunStopped? {
        view :- ProjectRunEvent(view, submissions, e);
      } else if e.body.EnvironmentProgress? {
        view := view.(environment := view.environment + [e]);
      }
    }
    assert events[..|events|] == events;
    return Ok(view);
  }
}
