/** The client's incremental fold agrees with the server's snapshot, whatever
    part of the log the snapshot covered. */
module ProjectionTheorems {
  import opened Wrappers
  import opened Events
  import opened Projection

  // ------------------------------------------------------ valid public logs

  /** What the two folds read differently: a terminal event's type and its
      run's status, and a tool call without arguments. */
  predicate Renderable(e: Event) {
    match e.body
    case AssistantCommitted(output) => ObjectArguments(output.parts)
    case RunFailed(run) => run.status == Failed
    case RunStopped(run) => run.status == Stopped
    case _ => true
  }

  ghost predicate SameKey(events: seq<Event>, i: nat, j: nat) {
    && i < |events| && j < |events| && HasMessage(events[i]) && HasMessage(events[j])
    && MessageKeyOf(events[i]) == MessageKeyOf(events[j])
  }

  /** Ascending positive cursors, no message twice, and ProjectView accepts it. */
  ghost predicate PublicLog(conv: Id, events: seq<Event>) {
    && (forall i | 0 <= i < |events| :: events[i].cursor > 0 && Renderable(events[i]))
    && (forall i, j | 0 <= i < j < |events| :: events[i].cursor < events[j].cursor)
    && (forall i: nat, j: nat :: SameKey(events, i, j) ==> i == j)
    && Project(conv, events).Ok?
  }

  // ------------------------------------------------------------- one event

  ghost predicate SameTool(tools: seq<ToolView>, i: nat, j: nat) {
    i < |tools| && j < |tools| && tools[i].run == tools[j].run && tools[i].call == tools[j].call
  }

  ghost predicate ToolsDistinct(tools: seq<ToolView>) {
    forall i: nat, j: nat :: SameTool(tools, i, j) ==> i == j
  }

  /** Nothing in the view carries the event's message id or its cursor. */
  ghost predicate Unseen(view: View, e: Event) {
    && e.cursor > 0
    && (HasMessage(e) ==> forall m | m in view.messages :: m.id != MessageKeyOf(e))
    && (forall entry | entry in view.environment :: entry.cursor != e.cursor)
  }

  lemma UpsertNew<T>(items: seq<T>, item: T, same: T -> bool)
    requires forall x | x in items :: !same(x)
    ensures Upsert(items, item, same) == items + [item]
  {
  }

  lemma {:induction false} ToolsAgree(tools: seq<ToolView>, e: Event, parts: seq<Part>)
    requires AddTools(tools, e, parts).Ok? && ToolsDistinct(tools)
    requires ObjectArguments(parts)
    ensures UpsertTools(tools, e, parts) == AddTools(tools, e, parts).value
    ensures ToolsDistinct(AddTools(tools, e, parts).value)
    decreases parts
  {
    if parts != [] {
      assert parts[0] in parts;
      assert forall p | p in parts[1..] :: p in parts;
      if parts[0].ToolCall? {
        var tool := RequestedTool(e, parts[0]);
        var same := (t: ToolView) => t.run == e.run && t.call == parts[0].call;
        assert FirstIndex(tools, same) == ToolIndex(tools, e.run, parts[0].call);
        NewTool(tools, tool);
        ToolsAgree(tools + [tool], e, parts[1..]);
      } else {
        ToolsAgree(tools, e, parts[1..]);
      }
    }
  }

  lemma NewTool(tools: seq<ToolView>, tool: ToolView)
    requires ToolsDistinct(tools) && ToolIndex(tools, tool.run, tool.call) == |tools|
    ensures UpsertToolCall(tools, tool) == tools + [tool]
    ensures ToolsDistinct(tools + [tool])
  {
    var same := (t: ToolView) => t.run == tool.run && t.call == tool.call;
    assert forall t | t in tools :: !same(t) by {
      assert forall k | 0 <= k < |tools| :: !(tools[k].run == tool.run && tools[k].call == tool.call);
    }
    UpsertNew(tools, tool, same);
    forall i: nat, j: nat | SameTool(tools + [tool], i, j)
      ensures i == j
    {
      if i < |tools| && j < |tools| {
        assert SameTool(tools, i, j);
      }
    }
  }

  lemma {:induction false} ResolveAllAt(tools: seq<ToolView>, e: Event, outcome: ToolOutcome, k: nat)
    requires k < |tools|
    ensures |ResolveAll(tools, e, outcome)| == |tools|
    ensures ResolveAll(tools, e, outcome)[k] ==
            if tools[k].run == e.run && tools[k].call == outcome.call then Resolved(tools[k], e, outcome) else tools[k]
  {
    if k > 0 {
      ResolveAllAt(tools[1..], e, outcome, k - 1);
    } else if |tools| > 1 {
      ResolveAllAt(tools[1..], e, outcome, 0);
    }
  }

  lemma ResolveAgrees(tools: seq<ToolView>, e: Event, outcome: ToolOutcome)
    requires ToolsDistinct(tools) && ToolIndex(tools, e.run, outcome.call) < |tools|
    ensures var i := ToolIndex(tools, e.run, outcome.call);
            && ResolveAll(tools, e, outcome) == tools[i := Resolved(tools[i], e, outcome)]
            && ToolsDistinct(tools[i := Resolved(tools[i], e, outcome)])
  {
    var i := ToolIndex(tools, e.run, outcome.call);
    var after := tools[i := Resolved(tools[i], e, outcome)];
    ResolveAllAt(tools, e, outcome, 0);
    forall k | 0 <= k < |tools|
      ensures ResolveAll(tools, e, outcome)[k] == after[k]
    {
      ResolveAllAt(tools, e, outcome, k);
      assert tools[k].run == e.run && tools[k].call == outcome.call ==> SameTool(tools, i, k);
    }
    forall a: nat, b: nat | SameTool(after, a, b)
      ensures a == b
    {
      assert SameTool(tools, a, b);
    }
  }

  lemma RunAgrees(view: View, run: Run, active: Option<Run>)
    requires ProjectRun(view, run, active).Ok?
    ensures ApplyRun(view, run, active) == ProjectRun(view, run, active).value
  {
    var i := SubmissionIndex(view.submissions, run.inbound);
    var item := view.submissions[i].(status := run.status, error := run.error);
    assert item.id == run.inbound;
  }

  lemma MessageAgrees(messages: seq<Message>, message: Message)
    requires forall m | m in messages :: m.id != message.id
    ensures UpsertMessage(messages, message) == messages + [message]
  {
    UpsertNew(messages, message, (m: Message) => m.id == message.id);
  }

  /** An event the view has not seen: both folds do the same. */
  lemma StepAgrees(conv: Id, view: View, e: Event)
    requires ProjectStep(conv, view, e).Ok? && Renderable(e) && Unseen(view, e) && ToolsDistinct(view.tools)
    ensures ApplyEvent(view, e) == ProjectStep(conv, view, e).value
    ensures ToolsDistinct(ProjectStep(conv, view, e).value.tools)
  {
    var seen := view.(cursor := Max(view.cursor, e.cursor));
    if HasMessage(e) {
      var message := ProjectMessage(e).value;
      assert message.id == MessageKeyOf(e);
      MessageAgrees(view.messages, message);
      match e.body {
        case InputAccepted(_) =>
          UpsertNew(view.submissions, QueuedView(e), (s: SubmissionView) => s.id == e.inbound);
        case AssistantCommitted(output) => ToolsAgree(view.tools, e, output.parts);
        case ToolOutcomeRecorded(outcome) => ResolveAgrees(view.tools, e, outcome);
        case RunFailed(run) => RunAgrees(seen.(messages := view.messages + [message]), run, None);
        case RunStopped(run) => RunAgrees(seen.(messages := view.messages + [message]), run, None);
      }
    } else if e.body.RunStarted? || e.body.RunCompleted? {
      RunAgrees(seen, e.body.run, if e.body.RunStarted? then Some(e.body.run) else None);
    }
  }

  // ------------------------------------------------------- the whole log

  ghost predicate FromEvent(events: seq<Event>, key: MessageKey) {
    exists i :: 0 <= i < |events| && HasMessage(events[i]) && MessageKeyOf(events[i]) == key
  }

  /** What the view shows comes from the events. */
  ghost predicate Shows(view: View, events: seq<Event>) {
    && (forall m | m in view.messages :: FromEvent(events, m.id))
    && (forall entry | entry in view.environment :: entry in events)
  }

  lemma StepShows(conv: Id, view: View, events: seq<Event>, e: Event)
    requires Shows(view, events) && ProjectStep(conv, view, e).Ok?
    ensures Shows(ProjectStep(conv, view, e).value, events + [e])
  {
    var longer := events + [e];
    var view' := ProjectStep(conv, view, e).value;
    assert forall i | 0 <= i < |events| :: longer[i] == events[i];
    assert longer[|events|] == e;
    forall m | m in view'.messages
      ensures FromEvent(longer, m.id)
    {
      if m in view.messages {
        var i :| 0 <= i < |events| && HasMessage(events[i]) && MessageKeyOf(events[i]) == m.id;
        assert longer[i] == events[i];
      } else {
        assert HasMessage(e) && m == ProjectMessage(e).value;
      }
    }
  }

  lemma PrefixIsPublic(conv: Id, events: seq<Event>, k: nat)
    requires PublicLog(conv, events) && k <= |events|
    ensures PublicLog(conv, events[..k])
  {
    if Project(conv, events[..k]).Err? {
      ProjectStuck(conv, events, k);
    }
    assert forall i: nat, j: nat :: SameKey(events[..k], i, j) ==> SameKey(events, i, j);
  }

  lemma NextIsUnseen(conv: Id, events: seq<Event>, k: nat, view: View)
    requires PublicLog(conv, events) && k < |events| && Shows(view, events[..k])
    ensures Unseen(view, events[k])
  {
    var e := events[k];
    if HasMessage(e) {
      forall m | m in view.messages
        ensures m.id != MessageKeyOf(e)
      {
        var i :| 0 <= i < k && HasMessage(events[..k][i]) && MessageKeyOf(events[..k][i]) == m.id;
        assert events[..k][i] == events[i];
        assert m.id == MessageKeyOf(e) ==> SameKey(events, i, k);
      }
    }
  }

  /** The two folds agree on every valid public log, and the snapshot shows
      only what the log holds. */
  lemma {:induction false} FoldsAgree(conv: Id, events: seq<Event>)
    requires PublicLog(conv, events)
    ensures ApplyAll(EmptyView, events) == Project(conv, events).value
    ensures Shows(Project(conv, events).value, events) && ToolsDistinct(Project(conv, events).value.tools)
    decreases |events|
  {
    if events != [] {
      var n := |events| - 1;
      PrefixIsPublic(conv, events, n);
      FoldsAgree(conv, events[..n]);
      var view := Project(conv, events[..n]).value;
      NextIsUnseen(conv, events, n, view);
      assert events == events[..n] + [events[n]];
      OneMoreAgrees(conv, events[..n], view, events[n], Project(conv, events).value);
    }
  }

  lemma OneMoreAgrees(conv: Id, head: seq<Event>, view: View, e: Event, view': View)
    requires ProjectStep(conv, view, e) == Ok(view') && Renderable(e) && Unseen(view, e)
    requires Shows(view, head) && ToolsDistinct(view.tools)
    ensures ApplyEvent(view, e) == view' && Shows(view', head + [e]) && ToolsDistinct(view'.tools)
  {
    StepAgrees(conv, view, e);
    StepShows(conv, view, head, e);
  }

  lemma {:induction false} ApplyAppend(view: View, xs: seq<Event>, ys: seq<Event>)
    ensures ApplyAll(view, xs + ys) == ApplyAll(ApplyAll(view, xs), ys)
    decreases |ys|
  {
    if ys == [] {
      assert xs + ys == xs;
    } else {
      var n := |ys| - 1;
      assert (xs + ys)[..|xs + ys| - 1] == xs + ys[..n];
      ApplyAppend(view, xs, ys[..n]);
    }
  }

  /** Split a valid public log anywhere: the client that starts from the
      snapshot of the head and applies the tail sees the snapshot of the whole,
      in every field. */
  lemma SplitAnywhere(conv: Id, head: seq<Event>, tail: seq<Event>)
    requires PublicLog(conv, head + tail)
    ensures Project(conv, head).Ok?
    ensures Ok(ApplyAll(Project(conv, head).value, tail)) == Project(conv, head + tail)
  {
    assert (head + tail)[..|head|] == head;
    PrefixIsPublic(conv, head + tail, |head|);
    FoldsAgree(conv, head + tail);
    FoldsAgree(conv, head);
    ApplyAppend(EmptyView, head, tail);
  }

  // ------------------------------------------------- the snapshot's cursor

  lemma {:induction false} CursorIsLast(conv: Id, events: seq<Event>)
    requires PublicLog(conv, events)
    ensures Project(conv, events).value.cursor == if events == [] then 0 else events[|events| - 1].cursor
    decreases |events|
  {
    if events != [] {
      var n := |events| - 1;
      PrefixIsPublic(conv, events, n);
      CursorIsLast(conv, events[..n]);
      StepCursor(conv, Project(conv, events[..n]).value, events[n]);
    }
  }

  lemma StepCursor(conv: Id, view: View, e: Event)
    requires ProjectStep(conv, view, e).Ok?
    ensures ProjectStep(conv, view, e).value.cursor == Max(view.cursor, e.cursor)
  {
  }

  /** The cursor plays no part in the other fields of a view. */
  lemma {:induction false} CursorAside(view: View, c: nat, events: seq<Event>)
    ensures ApplyAll(view.(cursor := c), events) ==
            ApplyAll(view, events).(cursor := ApplyAll(view.(cursor := c), events).cursor)
    ensures ApplyAll(view, events).cursor >= view.cursor
    decreases |events|
  {
    if events != [] {
      var n := |events| - 1;
      CursorAside(view, c, events[..n]);
      ApplyAside(ApplyAll(view, events[..n]), ApplyAll(view.(cursor := c), events[..n]).cursor, events[n]);
    }
  }

  lemma ApplyAside(view: View, c: nat, e: Event)
    ensures ApplyEvent(view.(cursor := c), e) == ApplyEvent(view, e).(cursor := Max(c, e.cursor))
    ensures ApplyEvent(view, e).cursor == Max(view.cursor, e.cursor)
  {
    ApplyCursor(view, e);
    match e.body
    case RunFailed(_) => NoticeAside(view, c, e);
    case RunStopped(_) => NoticeAside(view, c, e);
    case _ =>
  }

  lemma ApplyCursor(view: View, e: Event)
    ensures ApplyEvent(view, e).cursor == Max(view.cursor, e.cursor)
  {
  }

  lemma NoticeAside(view: View, c: nat, e: Event)
    requires e.body.RunFailed? || e.body.RunStopped?
    ensures ApplyEvent(view.(cursor := c), e) == ApplyEvent(view, e).(cursor := Max(c, e.cursor))
  {
  }
}
