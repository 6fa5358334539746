/** What the public view of a conversation shows of its events
    (runtime/projection.go, runtime/types.go): each message, tool call and
    submission, from the events alone. */
module ProjectionContent {
  import opened Wrappers
  import opened Events
  import opened Projection
  import ProjectionTheorems

  // ------------------------------------------------------------- messages

  /** The events that have a message, in order. */
  function Spoken(events: seq<Event>): seq<Event> {
    if events == [] then []
    else
      var e := events[|events| - 1];
      Spoken(events[..|events| - 1]) + (if HasMessage(e) then [e] else [])
  }

  predicate ShowsText(shown: seq<Part>, parts: seq<TextPart>) {
    && |shown| == |parts|
    && forall i | 0 <= i < |parts| ::
         shown[i] == if parts[i].kind == "text" then Text(parts[i].text) else Unsupported(parts[i].kind)
  }

  /** Role, parts, final flag and notice of a message are those of its event. */
  predicate ShowsBody(m: Message, body: Body) {
    match body
    case InputAccepted(input) => m.role == User && ShowsText(m.parts, input.parts) && !m.final && m.notice.None?
    case AssistantCommitted(output) =>
      m.id == Plain(output.id) && m.role == Assistant && m.parts == output.parts && m.final == output.final && m.notice.None?
    case ToolOutcomeRecorded(outcome) =>
      && m.id == Plain(outcome.id) && m.role == Tool && !m.final && m.notice.None?
      && m.parts == [ToolResultPart(outcome.call, outcome.kind, outcome.result)]
    case RunFailed(run) =>
      m.role == Noticed && m.parts == [Text(FailedText)] && !m.final && m.notice == Some((run.status, run.error))
    case RunStopped(run) =>
      m.role == Noticed && m.parts == [Text(StoppedText)] && !m.final && m.notice == Some((run.status, run.error))
    case _ => false
  }

  predicate ShowsMessage(m: Message, e: Event) {
    && m.conv == e.conv && m.run == e.run && m.inbound == e.inbound && m.createdAt == e.createdAt
    && (e.body.InputAccepted? ==> m.id == Plain(e.inbound))
    && (e.body.RunFailed? || e.body.RunStopped? ==> m.id == Notice(e.run))
    && ShowsBody(m, e.body)
  }

  ghost predicate MessagesShown(messages: seq<Message>, events: seq<Event>) {
    && |messages| == |Spoken(events)|
    && forall k: nat | k < |messages| :: ShowsMessage(messages[k], Spoken(events)[k])
  }

  lemma {:induction false} TextShown(parts: seq<TextPart>)
    ensures ShowsText(UserParts(parts), parts)
  {
    if parts != [] {
      TextShown(parts[1..]);
      var shown := UserParts(parts);
      forall i | 0 <= i < |parts|
        ensures shown[i] == if parts[i].kind == "text" then Text(parts[i].text) else Unsupported(parts[i].kind)
      {
        if i > 0 {
          assert shown[i] == UserParts(parts[1..])[i - 1] && parts[i] == parts[1..][i - 1];
        }
      }
    }
  }

  lemma MessageShown(e: Event)
    requires HasMessage(e) && ProjectMessage(e).Ok?
    ensures ShowsMessage(ProjectMessage(e).value, e)
  {
    if e.body.InputAccepted? {
      TextShown(e.body.input.parts);
    }
  }

  lemma SpokenNext(events: seq<Event>, e: Event)
    ensures Spoken(events + [e]) == Spoken(events) + (if HasMessage(e) then [e] else [])
  {
    assert (events + [e])[..|events|] == events;
  }

  lemma StepMessages(conv: Id, view: View, e: Event, view': View)
    requires ProjectStep(conv, view, e) == Ok(view')
    ensures if HasMessage(e) then ProjectMessage(e).Ok? && view'.messages == view.messages + [ProjectMessage(e).value]
            else view'.messages == view.messages
  {
  }

  lemma MessagesNext(conv: Id, events: seq<Event>, view: View, e: Event, view': View)
    requires MessagesShown(view.messages, events) && ProjectStep(conv, view, e) == Ok(view')
    ensures MessagesShown(view'.messages, events + [e])
  {
    StepMessages(conv, view, e, view');
    SpokenNext(events, e);
    if HasMessage(e) {
      MessageShown(e);
      forall k: nat | k < |view'.messages|
        ensures ShowsMessage(view'.messages[k], Spoken(events + [e])[k])
      {
        if k < |view.messages| {
          assert ShowsMessage(view.messages[k], Spoken(events)[k]);
        }
      }
    }
  }

  // ---------------------------------------------------------------- tools

  /** A tool call, where the log requests it. */
  datatype Request = Request(event: Event, part: Part)

  function CallsIn(e: Event, parts: seq<Part>): seq<Request>
    ensures forall q | q in CallsIn(e, parts) :: q.part.ToolCall? && q.event == e
  {
    if parts == [] then []
    else
      var last := parts[|parts| - 1];
      CallsIn(e, parts[..|parts| - 1]) + (if last.ToolCall? then [Request(e, last)] else [])
  }

  /** Every tool call that the log requests, in order. */
  function Requests(events: seq<Event>): seq<Request>
    ensures forall q | q in Requests(events) :: q.part.ToolCall?
  {
    if events == [] then []
    else
      var e := events[|events| - 1];
      Requests(events[..|events| - 1]) + (if e.body.AssistantCommitted? then CallsIn(e, e.body.output.parts) else [])
  }

  predicate IsOutcome(e: Event, run: Id, call: string) {
    e.body.ToolOutcomeRecorded? && e.run == run && e.body.outcome.call == call
  }

  /** The last outcome that the log has for a call. */
  function LastOutcome(events: seq<Event>, run: Id, call: string): (o: Option<Event>)
    ensures o.Some? ==> IsOutcome(o.value, run, call)
  {
    if events == [] then None
    else if IsOutcome(events[|events| - 1], run, call) then Some(events[|events| - 1])
    else LastOutcome(events[..|events| - 1], run, call)
  }

  /** The tool call shows the part that requested it, and its outcome. */
  predicate ShowsTool(t: ToolView, q: Request, o: Option<Event>)
    requires q.part.ToolCall? && (o.Some? ==> o.value.body.ToolOutcomeRecorded?)
  {
    && t.call == q.part.call && t.kind == q.part.kind && t.arguments == q.part.arguments
    && t.conv == q.event.conv && t.run == q.event.run && t.inbound == q.event.inbound
    && match o
       case None => t.status == Requested && t.result.None? && t.updatedAt == q.event.createdAt
       case Some(e) => && t.status == e.body.outcome.status && t.result == Some(e.body.outcome.result)
                       && t.updatedAt == e.createdAt
  }

  ghost predicate ToolShown(t: ToolView, q: Request, events: seq<Event>) {
    q.part.ToolCall? && ShowsTool(t, q, LastOutcome(events, q.event.run, q.part.call))
  }

  ghost predicate ToolsShownAs(tools: seq<ToolView>, requests: seq<Request>, events: seq<Event>) {
    && |tools| == |requests|
    && forall k: nat | k < |tools| :: ToolShown(tools[k], requests[k], events)
  }

  ghost predicate ToolsShown(tools: seq<ToolView>, events: seq<Event>) {
    ToolsShownAs(tools, Requests(events), events)
  }

  predicate HasTool(tools: seq<ToolView>, run: Id, call: string) {
    exists k | 0 <= k < |tools| :: tools[k].run == run && tools[k].call == call
  }

  /** No outcome comes before its request. */
  ghost predicate OutcomesRequested(tools: seq<ToolView>, events: seq<Event>) {
    forall run: Id, call: string :: LastOutcome(events, run, call).Some? ==> HasTool(tools, run, call)
  }

  ghost predicate OneEach(tools: seq<ToolView>) {
    forall i: nat, j: nat :: SameCall(tools, i, j) ==> i == j
  }

  ghost predicate SameCall(tools: seq<ToolView>, i: nat, j: nat) {
    i < |tools| && j < |tools| && tools[i].run == tools[j].run && tools[i].call == tools[j].call
  }

  lemma IndexMeans(tools: seq<ToolView>, run: Id, call: string)
    ensures ToolIndex(tools, run, call) <= |tools|
    ensures ToolIndex(tools, run, call) < |tools| <==> HasTool(tools, run, call)
    ensures var i := ToolIndex(tools, run, call);
            i < |tools| ==> tools[i].run == run && tools[i].call == call
  {
  }

  lemma OneMoreCall(tools: seq<ToolView>, requests: seq<Request>, events: seq<Event>, e: Event, part: Part, tool: ToolView)
    requires ToolsShownAs(tools, requests, events) && OutcomesRequested(tools, events) && OneEach(tools)
    requires part.ToolCall? && !HasTool(tools, e.run, part.call)
    requires tool == ToolView(part.call, e.conv, e.run, e.inbound, part.kind, part.arguments, Requested, None, e.createdAt)
    ensures ToolsShownAs(tools + [tool], requests + [Request(e, part)], events)
    ensures OutcomesRequested(tools + [tool], events) && OneEach(tools + [tool])
  {
    var more, asked := tools + [tool], requests + [Request(e, part)];
    forall k: nat | k < |more|
      ensures ToolShown(more[k], asked[k], events)
    {
      if k < |tools| {
        assert ToolShown(tools[k], requests[k], events);
      }
    }
    forall run: Id, call: string | LastOutcome(events, run, call).Some?
      ensures HasTool(more, run, call)
    {
      var k :| 0 <= k < |tools| && tools[k].run == run && tools[k].call == call;
      assert more[k] == tools[k];
    }
    assert forall i: nat, j: nat :: SameCall(more, i, j) && i < |tools| && j < |tools| ==> SameCall(tools, i, j);
  }

  lemma {:induction false} CallsAdded(tools: seq<ToolView>, requests: seq<Request>, events: seq<Event>, e: Event, done: seq<Part>, parts: seq<Part>)
    requires AddTools(tools, e, parts).Ok?
    requires ToolsShownAs(tools, requests + CallsIn(e, done), events) && OutcomesRequested(tools, events) && OneEach(tools)
    ensures var tools' := AddTools(tools, e, parts).value;
            && ToolsShownAs(tools', requests + CallsIn(e, done + parts), events)
            && OutcomesRequested(tools', events) && OneEach(tools')
    decreases parts
  {
    if parts == [] {
      assert done + [] == done;
    } else {
      var part := parts[0];
      var done' := done + [part];
      assert done'[..|done|] == done && done' + parts[1..] == done + parts;
      if part.ToolCall? {
        var tool := ToolView(part.call, e.conv, e.run, e.inbound, part.kind, part.arguments, Requested, None, e.createdAt);
        IndexMeans(tools, e.run, part.call);
        OneMoreCall(tools, requests + CallsIn(e, done), events, e, part, tool);
        assert requests + CallsIn(e, done') == requests + CallsIn(e, done) + [Request(e, part)];
        CallsAdded(tools + [tool], requests, events, e, done', parts[1..]);
      } else {
        assert CallsIn(e, done') == CallsIn(e, done);
        CallsAdded(tools, requests, events, e, done', parts[1..]);
      }
    }
  }

  lemma RequestsNext(events: seq<Event>, e: Event)
    ensures Requests(events + [e]) ==
            Requests(events) + (if e.body.AssistantCommitted? then CallsIn(e, e.body.output.parts) else [])
  {
    assert (events + [e])[..|events|] == events;
  }

  lemma OutcomeNext(events: seq<Event>, e: Event, run: Id, call: string)
    ensures LastOutcome(events + [e], run, call) == if IsOutcome(e, run, call) then Some(e) else LastOutcome(events, run, call)
  {
    assert (events + [e])[..|events|] == events;
  }

  lemma OutcomesAside(tools: seq<ToolView>, requests: seq<Request>, events: seq<Event>, e: Event)
    requires ToolsShownAs(tools, requests, events) && OutcomesRequested(tools, events) && !e.body.ToolOutcomeRecorded?
    ensures ToolsShownAs(tools, requests, events + [e]) && OutcomesRequested(tools, events + [e])
  {
    forall k: nat | k < |tools|
      ensures ToolShown(tools[k], requests[k], events + [e])
    {
      assert ToolShown(tools[k], requests[k], events);
      OutcomeNext(events, e, requests[k].event.run, requests[k].part.call);
    }
    forall run: Id, call: string | LastOutcome(events + [e], run, call).Some?
      ensures HasTool(tools, run, call)
    {
      OutcomeNext(events, e, run, call);
    }
  }

  lemma OutcomeShown(tools: seq<ToolView>, requests: seq<Request>, events: seq<Event>, e: Event, i: nat, tools': seq<ToolView>)
    requires ToolsShownAs(tools, requests, events) && OneEach(tools)
    requires OneResolved(tools, i, e, tools') && IsOutcome(e, tools[i].run, tools[i].call)
    ensures ToolsShownAs(tools', requests, events + [e])
  {
    forall k: nat | k < |tools|
      ensures ToolShown(tools'[k], requests[k], events + [e])
    {
      assert ToolShown(tools[k], requests[k], events);
      OutcomeNext(events, e, tools[k].run, tools[k].call);
      if k != i {
        assert !SameCall(tools, k, i);
      }
    }
  }

  lemma OutcomeKeeps(tools: seq<ToolView>, events: seq<Event>, e: Event, i: nat, tool: ToolView)
    requires OutcomesRequested(tools, events) && OneEach(tools)
    requires i < |tools| && IsOutcome(e, tools[i].run, tools[i].call)
    requires tool.run == tools[i].run && tool.call == tools[i].call
    ensures OutcomesRequested(tools[i := tool], events + [e]) && OneEach(tools[i := tool])
  {
    var after := tools[i := tool];
    forall run: Id, call: string | LastOutcome(events + [e], run, call).Some?
      ensures HasTool(after, run, call)
    {
      OutcomeNext(events, e, run, call);
      if IsOutcome(e, run, call) {
        assert after[i].run == run && after[i].call == call;
      } else {
        var k :| 0 <= k < |tools| && tools[k].run == run && tools[k].call == call;
        assert after[k].run == run && after[k].call == call;
      }
    }
    assert forall j: nat, k: nat :: SameCall(after, j, k) ==> SameCall(tools, j, k);
  }

  /** The i-th tool call, and only that, has the outcome of `e`. */
  predicate OneResolved(tools: seq<ToolView>, i: nat, e: Event, tools': seq<ToolView>) {
    && e.body.ToolOutcomeRecorded? && i < |tools|
    && tools' == tools[i := tools[i].(status := e.body.outcome.status, result := Some(e.body.outcome.result), updatedAt := e.createdAt)]
  }

  /** What a step of the fold does to the tool calls. */
  lemma StepTools(conv: Id, view: View, e: Event, view': View)
    requires ProjectStep(conv, view, e) == Ok(view')
    ensures if e.body.AssistantCommitted? then AddTools(view.tools, e, e.body.output.parts) == Ok(view'.tools)
            else if e.body.ToolOutcomeRecorded? then
              OneResolved(view.tools, ToolIndex(view.tools, e.run, e.body.outcome.call), e, view'.tools)
            else view'.tools == view.tools
  {
  }

  lemma ToolsNext(conv: Id, events: seq<Event>, view: View, e: Event, view': View)
    requires ToolsShown(view.tools, events) && OutcomesRequested(view.tools, events) && OneEach(view.tools)
    requires ProjectStep(conv, view, e) == Ok(view')
    ensures ToolsShown(view'.tools, events + [e]) && OutcomesRequested(view'.tools, events + [e]) && OneEach(view'.tools)
  {
    StepTools(conv, view, e, view');
    RequestsNext(events, e);
    if e.body.AssistantCommitted? {
      var parts := e.body.output.parts;
      assert [] + parts == parts && Requests(events) + CallsIn(e, []) == Requests(events);
      CallsAdded(view.tools, Requests(events), events, e, [], parts);
      OutcomesAside(view'.tools, Requests(events) + CallsIn(e, parts), events, e);
    } else {
      assert Requests(events + [e]) == Requests(events);
      if e.body.ToolOutcomeRecorded? {
        var i := ToolIndex(view.tools, e.run, e.body.outcome.call);
        IndexMeans(view.tools, e.run, e.body.outcome.call);
        OutcomeShown(view.tools, Requests(events), events, e, i, view'.tools);
        OutcomeKeeps(view.tools, events, e, i, view'.tools[i]);
      } else {
        OutcomesAside(view.tools, Requests(events), events, e);
      }
    }
  }

  // ---------------------------------------------------------- submissions

  /** The accepted inputs, in order. */
  function Accepted(events: seq<Event>): seq<Event>
    ensures forall e | e in Accepted(events) :: e.body.InputAccepted?
  {
    if events == [] then []
    else
      var e := events[|events| - 1];
      Accepted(events[..|events| - 1]) + (if e.body.InputAccepted? then [e] else [])
  }

  predicate OfRun(e: Event) {
    e.body.RunStarted? || e.body.RunCompleted? || e.body.RunFailed? || e.body.RunStopped?
  }

  /** The run in the last run event for an input. */
  function LastRun(events: seq<Event>, inbound: Id): Option<Run> {
    if events == [] then None
    else
      var e := events[|events| - 1];
      if OfRun(e) && e.body.run.inbound == inbound then Some(e.body.run) else LastRun(events[..|events| - 1], inbound)
  }

  predicate ShowsSubmission(s: SubmissionView, e: Event, run: Option<Run>)
    requires e.body.InputAccepted?
  {
    && s.id == e.inbound && s.conv == e.conv && s.revision == e.body.input.revision && s.acceptedAt == e.createdAt
    && match run
       case None => s.status == Queued && s.error == ""
       case Some(run) => s.status == run.status && s.error == run.error
  }

  ghost predicate SubmissionShown(s: SubmissionView, e: Event, events: seq<Event>) {
    e.body.InputAccepted? && ShowsSubmission(s, e, LastRun(events, e.inbound))
  }

  ghost predicate ShownAs(items: seq<SubmissionView>, inputs: seq<Event>, events: seq<Event>) {
    && |items| == |inputs|
    && forall k: nat | k < |items| :: SubmissionShown(items[k], inputs[k], events)
  }

  ghost predicate SubmissionsShown(items: seq<SubmissionView>, events: seq<Event>) {
    ShownAs(items, Accepted(events), events)
  }

  predicate HasSubmission(items: seq<SubmissionView>, id: Id) {
    exists k | 0 <= k < |items| :: items[k].id == id
  }

  /** No run event comes before the input of its run. */
  ghost predicate RunsAccepted(items: seq<SubmissionView>, events: seq<Event>) {
    forall id: Id :: LastRun(events, id).Some? ==> HasSubmission(items, id)
  }

  ghost predicate OneSubmission(items: seq<SubmissionView>) {
    forall i: nat, j: nat :: SameInput(items, i, j) ==> i == j
  }

  ghost predicate SameInput(items: seq<SubmissionView>, i: nat, j: nat) {
    i < |items| && j < |items| && items[i].id == items[j].id
  }

  lemma SubmissionIndexMeans(items: seq<SubmissionView>, id: Id)
    ensures SubmissionIndex(items, id) <= |items|
    ensures SubmissionIndex(items, id) < |items| <==> HasSubmission(items, id)
    ensures SubmissionIndex(items, id) < |items| ==> items[SubmissionIndex(items, id)].id == id
  {
  }

  lemma AcceptedNext(events: seq<Event>, e: Event)
    ensures Accepted(events + [e]) == Accepted(events) + (if e.body.InputAccepted? then [e] else [])
  {
    assert (events + [e])[..|events|] == events;
  }

  lemma RunNext(events: seq<Event>, e: Event, inbound: Id)
    ensures LastRun(events + [e], inbound) ==
            if OfRun(e) && e.body.run.inbound == inbound then Some(e.body.run) else LastRun(events, inbound)
  {
    assert (events + [e])[..|events|] == events;
  }

  lemma RunsAside(items: seq<SubmissionView>, inputs: seq<Event>, events: seq<Event>, e: Event)
    requires ShownAs(items, inputs, events) && RunsAccepted(items, events) && !OfRun(e)
    ensures ShownAs(items, inputs, events + [e]) && RunsAccepted(items, events + [e])
  {
    forall k: nat | k < |items|
      ensures SubmissionShown(items[k], inputs[k], events + [e])
    {
      assert SubmissionShown(items[k], inputs[k], events);
      RunNext(events, e, inputs[k].inbound);
    }
    forall id: Id | LastRun(events + [e], id).Some?
      ensures HasSubmission(items, id)
    {
      RunNext(events, e, id);
    }
  }

  lemma OneMoreInput(items: seq<SubmissionView>, inputs: seq<Event>, events: seq<Event>, e: Event, s: SubmissionView)
    requires ShownAs(items, inputs, events) && RunsAccepted(items, events) && OneSubmission(items)
    requires e.body.InputAccepted? && !HasSubmission(items, e.inbound)
    requires s == SubmissionView(e.inbound, e.conv, e.body.input.revision, Queued, "", e.createdAt)
    ensures ShownAs(items + [s], inputs + [e], events) && RunsAccepted(items + [s], events) && OneSubmission(items + [s])
  {
    var more, accepted := items + [s], inputs + [e];
    forall k: nat | k < |more|
      ensures SubmissionShown(more[k], accepted[k], events)
    {
      if k < |items| {
        assert SubmissionShown(items[k], inputs[k], events);
      }
    }
    forall id: Id | LastRun(events, id).Some?
      ensures HasSubmission(more, id)
    {
      var k :| 0 <= k < |items| && items[k].id == id;
      assert more[k] == items[k];
    }
    forall i: nat, j: nat | SameInput(more, i, j)
      ensures i == j
    {
      if i < |items| && j < |items| {
        assert SameInput(items, i, j);
      }
    }
  }

  lemma RunShown(items: seq<SubmissionView>, inputs: seq<Event>, events: seq<Event>, e: Event, i: nat, items': seq<SubmissionView>)
    requires ShownAs(items, inputs, events) && OneSubmission(items)
    requires OfRun(e) && i < |items| && items[i].id == e.body.run.inbound
    requires items' == items[i := items[i].(status := e.body.run.status, error := e.body.run.error)]
    ensures ShownAs(items', inputs, events + [e]) && OneSubmission(items')
  {
    forall k: nat | k < |items|
      ensures SubmissionShown(items'[k], inputs[k], events + [e])
    {
      assert SubmissionShown(items[k], inputs[k], events);
      RunNext(events, e, items[k].id);
      if k != i {
        assert !SameInput(items, k, i);
      }
    }
    assert forall j: nat, k: nat :: SameInput(items', j, k) ==> SameInput(items, j, k);
  }

  lemma RunKeeps(items: seq<SubmissionView>, events: seq<Event>, e: Event, i: nat, s: SubmissionView)
    requires RunsAccepted(items, events) && OfRun(e) && i < |items| && items[i].id == e.body.run.inbound && s.id == items[i].id
    ensures RunsAccepted(items[i := s], events + [e])
  {
    var after := items[i := s];
    forall id: Id | LastRun(events + [e], id).Some?
      ensures HasSubmission(after, id)
    {
      RunNext(events, e, id);
      if e.body.run.inbound == id {
        assert after[i].id == id;
      } else {
        var k :| 0 <= k < |items| && items[k].id == id;
        assert after[k].id == id;
      }
    }
  }

  /** What a step of the fold does to the submissions and the active run. */
  lemma StepSubmissions(conv: Id, view: View, e: Event, view': View)
    requires ProjectStep(conv, view, e) == Ok(view')
    ensures if e.body.InputAccepted? then
              && SubmissionIndex(view.submissions, e.inbound) >= |view.submissions|
              && view'.submissions ==
                 view.submissions + [SubmissionView(e.inbound, e.conv, e.body.input.revision, Queued, "", e.createdAt)]
            else if OfRun(e) then
              var i := SubmissionIndex(view.submissions, e.body.run.inbound);
              && i < |view.submissions|
              && view'.submissions == view.submissions[i := view.submissions[i].(status := e.body.run.status, error := e.body.run.error)]
            else view'.submissions == view.submissions
  {
    if OfRun(e) {
      SubmissionIndexMeans(view.submissions, e.body.run.inbound);
    }
  }

  lemma SubmissionsNext(conv: Id, events: seq<Event>, view: View, e: Event, view': View)
    requires SubmissionsShown(view.submissions, events) && RunsAccepted(view.submissions, events) && OneSubmission(view.submissions)
    requires ProjectStep(conv, view, e) == Ok(view')
    ensures SubmissionsShown(view'.submissions, events + [e])
    ensures RunsAccepted(view'.submissions, events + [e]) && OneSubmission(view'.submissions)
  {
    StepSubmissions(conv, view, e, view');
    AcceptedNext(events, e);
    var items := view.submissions;
    if e.body.InputAccepted? {
      SubmissionIndexMeans(items, e.inbound);
      OneMoreInput(items, Accepted(events), events, e, view'.submissions[|items|]);
      RunsAside(view'.submissions, Accepted(events) + [e], events, e);
    } else {
      assert Accepted(events + [e]) == Accepted(events);
      if OfRun(e) {
        var i := SubmissionIndex(items, e.body.run.inbound);
        SubmissionIndexMeans(items, e.body.run.inbound);
        RunShown(items, Accepted(events), events, e, i, view'.submissions);
        RunKeeps(items, events, e, i, view'.submissions[i]);
      } else {
        RunsAside(items, Accepted(events), events, e);
      }
    }
  }

  // ------------------------------------------------------------- the rest

  /** The active run: that of the last run event, if that is a start. */
  function StartedLast(events: seq<Event>): Option<Run> {
    if events == [] then None
    else
      var e := events[|events| - 1];
      if e.body.RunStarted? then Some(e.body.run)
      else if OfRun(e) then None
      else StartedLast(events[..|events| - 1])
  }

  function EnvironmentOf(events: seq<Event>): seq<Event> {
    if events == [] then []
    else
      var e := events[|events| - 1];
      EnvironmentOf(events[..|events| - 1]) + (if e.body.EnvironmentProgress? then [e] else [])
  }

  /** The cursor is the largest of the log, or 0. */
  predicate IsLastCursor(cursor: nat, events: seq<Event>) {
    && (forall i | 0 <= i < |events| :: events[i].cursor <= cursor)
    && (cursor == 0 || exists i | 0 <= i < |events| :: events[i].cursor == cursor)
  }

  lemma RestNext(conv: Id, events: seq<Event>, view: View, e: Event, view': View)
    requires view.activeRun == StartedLast(events) && view.environment == EnvironmentOf(events)
    requires ProjectStep(conv, view, e) == Ok(view')
    ensures view'.activeRun == StartedLast(events + [e]) && view'.environment == EnvironmentOf(events + [e])
  {
    assert (events + [e])[..|events|] == events;
  }

  lemma CursorNext(conv: Id, events: seq<Event>, view: View, e: Event, view': View)
    requires IsLastCursor(view.cursor, events) && ProjectStep(conv, view, e) == Ok(view')
    ensures IsLastCursor(view'.cursor, events + [e])
  {
    var more := events + [e];
    assert more[|events|] == e;
    assert view'.cursor == Max(view.cursor, e.cursor);
    forall i | 0 <= i < |more|
      ensures more[i].cursor <= view'.cursor
    {
      if i < |events| {
        assert more[i] == events[i];
      }
    }
    if view.cursor != 0 {
      var i :| 0 <= i < |events| && events[i].cursor == view.cursor;
      assert more[i] == events[i];
    }
  }

  // ------------------------------------------------------------ the whole

  /** A view shows exactly what its events say. */
  ghost predicate Shows(view: View, events: seq<Event>) {
    && MessagesShown(view.messages, events)
    && ToolsShown(view.tools, events)
    && SubmissionsShown(view.submissions, events)
    && view.activeRun == StartedLast(events)
    && view.environment == EnvironmentOf(events)
    && IsLastCursor(view.cursor, events)
  }

  ghost predicate Settled(view: View, events: seq<Event>) {
    && OutcomesRequested(view.tools, events) && OneEach(view.tools)
    && RunsAccepted(view.submissions, events) && OneSubmission(view.submissions)
  }

  lemma ShowsNext(conv: Id, events: seq<Event>, view: View, e: Event, view': View)
    requires Shows(view, events) && Settled(view, events) && ProjectStep(conv, view, e) == Ok(view')
    ensures Shows(view', events + [e]) && Settled(view', events + [e])
  {
    MessagesNext(conv, events, view, e, view');
    ToolsNext(conv, events, view, e, view');
    SubmissionsNext(conv, events, view, e, view');
    RestNext(conv, events, view, e, view');
    CursorNext(conv, events, view, e, view');
  }

  lemma {:induction false} ProjectShows(conv: Id, events: seq<Event>, view: View)
    requires Project(conv, events) == Ok(view)
    ensures Shows(view, events) && Settled(view, events)
    decreases |events|
  {
    if events != [] {
      var n := |events| - 1;
      var earlier := Project(conv, events[..n]).value;
      ProjectShows(conv, events[..n], earlier);
      ShowsNext(conv, events[..n], earlier, events[n], view);
      assert events[..n] + [events[n]] == events;
    }
  }

  /** The snapshot of any log that projects shows each message, tool call
      and submission as its own events say. */
  lemma SnapshotShowsEvents(conv: Id, events: seq<Event>)
    requires Project(conv, events).Ok?
    ensures Shows(Project(conv, events).value, events)
  {
    ProjectShows(conv, events, Project(conv, events).value);
  }

  /** And so does the view that a client builds event by event. */
  lemma ClientShowsEvents(conv: Id, events: seq<Event>)
    requires ProjectionTheorems.PublicLog(conv, events)
    ensures Shows(ApplyAll(EmptyView, events), events)
  {
    ProjectionTheorems.FoldsAgree(conv, events);
    SnapshotShowsEvents(conv, events);
  }
}
