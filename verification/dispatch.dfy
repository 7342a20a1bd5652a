/**
 * The POST webhook endpoint (server.js:123-177). Its nested `forEach` loops
 * over entries, changes, messages and statuses are the methods below; what
 * they compute is specified by a flat work list of the body's messages and
 * statuses, in processing order, run one after the other until one throws.
 */
module Dispatch {
  import opened Wrappers
  import opened Events
  import opened Envelope
  import opened Handlers

  const PlatformObject: string := "whatsapp_business_account"
  const MessagesField: string := "messages"

  /** One unit of work: a message with its change's metadata, a status, or a malformed part that throws. */
  datatype WorkItem =
    | MessageItem(message: Message, metadata: Option<Metadata>)
    | StatusItem(status: Status)
    | Malformed(fault: Fault)

  /** A message is logged and handed to `handleMessage`; a status is logged and handed to `handleStatus`. */
  function Step(item: WorkItem, accessToken: string): (r: Run)
    ensures item.MessageItem? ==>
      && |r.events| >= 1
      && r.events[0] == Log(MessageReceived(item.message.sender, item.message.kind, item.message.timestamp, item.message.id))
      && (r.fault.Some? <==> item.metadata.None? || PayloadMissing(item.message))
      && r.events[1..] == HandleMessage(item.message, item.metadata, accessToken).events
      && r.fault == HandleMessage(item.message, item.metadata, accessToken).fault
    ensures item.StatusItem? ==>
      r.fault.None? && r.events == [Log(StatusReceived(item.status.id, item.status.status, item.status.timestamp))] + HandleStatus(item.status)
    ensures item.Malformed? ==> r == Throw(item.fault)
  {
    match item
    case MessageItem(m, metadata) =>
      Then(Emit(MessageReceived(m.sender, m.kind, m.timestamp, m.id)), HandleMessage(m, metadata, accessToken))
    case StatusItem(s) =>
      Run([Log(StatusReceived(s.id, s.status, s.timestamp))] + HandleStatus(s), None)
    case Malformed(f) =>
      Throw(f)
  }

  /** The step of the server: `Step` with the configured access token. */
  function StepOf(accessToken: string): WorkItem -> Run {
    (item: WorkItem) => Step(item, accessToken)
  }

  /** The items run in order under `step`; the first that throws ends the run. */
  function Process(items: seq<WorkItem>, step: WorkItem -> Run): Run {
    if items == [] then Run([], None)
    else Then(Process(items[..|items| - 1], step), step(items[|items| - 1]))
  }

  function MessageItems(messages: seq<Message>, metadata: Option<Metadata>): (items: seq<WorkItem>)
    ensures |items| == |messages|
  {
    seq(|messages|, i requires 0 <= i < |messages| => MessageItem(messages[i], metadata))
  }

  function StatusItems(statuses: seq<Status>): (items: seq<WorkItem>)
    ensures |items| == |statuses|
  {
    seq(|statuses|, i requires 0 <= i < |statuses| => StatusItem(statuses[i]))
  }

  /**
   * The work of one change: nothing unless its field is `messages`; a throw
   * when it has no value; else its messages (each with the change's
   * metadata), then its statuses.
   */
  function ChangeItems(c: Change): seq<WorkItem> {
    if c.field != Some(MessagesField) then []
    else if c.value.None? then [Malformed(MissingValue)]
    else
      var v := c.value.value;
      (if v.messages.Some? then MessageItems(v.messages.value, v.metadata) else [])
      + (if v.statuses.Some? then StatusItems(v.statuses.value) else [])
  }

  function EntryItems(e: Entry): seq<WorkItem> {
    if e.changes.None? then [Malformed(MissingChanges)] else FlatMap(e.changes.value, ChangeItems)
  }

  /** The work of a body whose `object` is the platform's. */
  function WorkList(body: WebhookBody): seq<WorkItem> {
    if body.entry.None? then [Malformed(MissingEntry)] else FlatMap(body.entry.value, EntryItems)
  }

  function FlatMap<T>(xs: seq<T>, f: T -> seq<WorkItem>): seq<WorkItem> {
    if xs == [] then [] else FlatMap(xs[..|xs| - 1], f) + f(xs[|xs| - 1])
  }

  lemma {:induction false} FlatMapAppend<T>(xs: seq<T>, ys: seq<T>, f: T -> seq<WorkItem>)
    ensures FlatMap(xs + ys, f) == FlatMap(xs, f) + FlatMap(ys, f)
    decreases |ys|
  {
    if ys == [] {
      assert xs + ys == xs;
    } else {
      var n := |ys| - 1;
      assert (xs + ys)[..|xs + ys| - 1] == xs + ys[..n];
      FlatMapAppend(xs, ys[..n], f);
    }
  }

  /** Running two work lists back to back is running their concatenation. */
  lemma {:induction false} ProcessAppend(xs: seq<WorkItem>, ys: seq<WorkItem>, step: WorkItem -> Run)
    ensures Process(xs + ys, step) == Then(Process(xs, step), Process(ys, step))
    decreases |ys|
  {
    if ys == [] {
      assert xs + ys == xs;
    } else {
      var n := |ys| - 1;
      assert (xs + ys)[..|xs + ys| - 1] == xs + ys[..n];
      ProcessAppend(xs, ys[..n], step);
      ThenAssociative(Process(xs, step), Process(ys[..n], step), step(ys[n]));
    }
  }

  /** Running one more item runs its step after the run so far. */
  lemma ProcessSnoc(items: seq<WorkItem>, i: nat, step: WorkItem -> Run)
    requires i < |items|
    ensures Process(items[..i + 1], step) == Then(Process(items[..i], step), step(items[i]))
  {
    assert items[..i + 1][..i] == items[..i];
  }

  /** Once a prefix of the work has thrown, the rest of the work has no effect. */
  lemma StopsAtFault(items: seq<WorkItem>, k: nat, step: WorkItem -> Run)
    requires k <= |items|
    requires Process(items[..k], step).fault.Some?
    ensures Process(items, step) == Process(items[..k], step)
  {
    assert items == items[..k] + items[k..];
    ProcessAppend(items[..k], items[k..], step);
  }

  /** The index of the first item whose step throws, or the length when none does. */
  function FirstFault(items: seq<WorkItem>, step: WorkItem -> Run): (k: nat)
    ensures k <= |items|
    ensures forall i :: 0 <= i < k ==> step(items[i]).fault.None?
    ensures k < |items| ==> step(items[k]).fault.Some?
  {
    if items == [] then 0
    else
      var pre := items[..|items| - 1];
      var k := FirstFault(pre, step);
      assert forall i :: 0 <= i < |pre| ==> items[i] == pre[i];
      if k < |pre| then k
      else if step(items[|items| - 1]).fault.Some? then |pre|
      else |items|
  }

  /** The requests a work list asks for, item by item, stated without running it. */
  function ExpectedAll(items: seq<WorkItem>, expected: WorkItem -> seq<OutboundRequest>): seq<OutboundRequest> {
    if items == [] then []
    else ExpectedAll(items[..|items| - 1], expected) + expected(items[|items| - 1])
  }

  /** `step` issues exactly the requests `expected` names, and none when it throws. */
  ghost predicate IssuesExpected(step: WorkItem -> Run, expected: WorkItem -> seq<OutboundRequest>) {
    forall item ::
      && Requests(step(item).events) == expected(item)
      && (step(item).fault.Some? ==> expected(item) == [])
  }

  /**
   * The run throws exactly when some item does, and then it stops right
   * after the first such item; the requests issued are exactly those the
   * items before it ask for, in order.
   */
  lemma {:induction false} ProcessFirstFault(items: seq<WorkItem>, step: WorkItem -> Run, expected: WorkItem -> seq<OutboundRequest>)
    requires IssuesExpected(step, expected)
    ensures Process(items, step).fault.None? <==> FirstFault(items, step) == |items|
    ensures FirstFault(items, step) < |items| ==>
      Process(items, step) == Process(items[..FirstFault(items, step) + 1], step)
    ensures Requests(Process(items, step).events) == ExpectedAll(items[..FirstFault(items, step)], expected)
    decreases |items|
  {
    if items == [] {
      assert items[..0] == [];
    } else {
      var n := |items| - 1;
      var pre := items[..n];
      ProcessFirstFault(pre, step, expected);
      var k := FirstFault(pre, step);
      RequestsAppend(Process(pre, step).events, step(items[n]).events);
      assert items[..n + 1] == items;
      if k < n {
        assert items[..k + 1] == pre[..k + 1];
        assert items[..k] == pre[..k];
      } else {
        assert items[..n] == pre && pre[..n] == pre;
        assert Requests(step(items[n]).events) == expected(items[n]);
        assert Process(items, step) == Then(Process(pre, step), step(items[n]));
        if step(items[n]).fault.Some? {
          assert FirstFault(items, step) == n;
          assert Requests(Process(items, step).events) == Requests(Process(pre, step).events) + [];
        } else {
          assert FirstFault(items, step) == n + 1;
          assert ExpectedAll(items, expected) == ExpectedAll(pre, expected) + expected(items[n]);
        }
      }
    }
  }

  /** The requests one item of the server asks for: those of a message (see ExpectedRequests). */
  function ExpectedOf(accessToken: string): WorkItem -> seq<OutboundRequest> {
    (item: WorkItem) => if item.MessageItem? then ExpectedRequests(item.message, item.metadata, accessToken) else []
  }

  lemma StepIssuesExpected(accessToken: string)
    ensures IssuesExpected(StepOf(accessToken), ExpectedOf(accessToken))
  {
    forall item
      ensures Requests(Step(item, accessToken).events) == ExpectedOf(accessToken)(item)
      ensures Step(item, accessToken).fault.Some? ==> ExpectedOf(accessToken)(item) == []
    {
      match item
      case MessageItem(m, metadata) =>
        var received := [Log(MessageReceived(m.sender, m.kind, m.timestamp, m.id))];
        RequestsAppend(received, HandleMessage(m, metadata, accessToken).events);
      case StatusItem(s) =>
        RequestsAppend([Log(StatusReceived(s.id, s.status, s.timestamp))], HandleStatus(s));
      case Malformed(f) =>
    }
  }

  /** The HTTP status and the trace of one POST. */
  datatype Response = Response(status: int, trace: seq<Event>)

  /**
   * A body for another platform gets 404 and is not looked at further;
   * otherwise its work runs and the answer is 200, or 500 (with the error
   * logged) when something threw. `accessToken` is the configured
   * `WHATSAPP_TOKEN` the replies are authorised with.
   */
  function Post(body: WebhookBody, accessToken: string): (r: Response)
    ensures r.status == 200 || r.status == 404 || r.status == 500
    ensures r.status == 404 <==> body.objectKind != Some(PlatformObject)
    ensures r.status == 500 ==> |r.trace| >= 1 && r.trace[|r.trace| - 1].Log? && r.trace[|r.trace| - 1].entry.ProcessingError?
  {
    if body.objectKind != Some(PlatformObject) then Response(404, [Log(NonPlatformEvent)])
    else
      var run := Process(WorkList(body), StepOf(accessToken));
      if run.fault.None? then Response(200, run.events)
      else Response(500, run.events + [Log(ProcessingError(run.fault.value))])
  }

  /** A foreign `object` gets 404 and nothing else: no message or status is logged, handled or answered. */
  lemma ForeignBodyIgnored(body: WebhookBody, accessToken: string)
    ensures Post(body, accessToken).status == 404 <==> body.objectKind != Some(PlatformObject)
    ensures Post(body, accessToken).status == 404 ==> Post(body, accessToken).trace == [Log(NonPlatformEvent)]
  {
  }

  /**
   * For the platform's bodies: 200 exactly when no item throws; on a throw,
   * 500 after the events up to and including the failing item, with the
   * later items not processed; and in both cases the requests sent are
   * those the items before the first failure ask for, in order.
   */
  lemma PostOutcome(body: WebhookBody, accessToken: string)
    requires body.objectKind == Some(PlatformObject)
    ensures var items := WorkList(body);
      var step := StepOf(accessToken);
      var k := FirstFault(items, step);
      && (Post(body, accessToken).status == 200 <==> k == |items|)
      && (Post(body, accessToken).status != 200 ==>
            Post(body, accessToken).status == 500 &&
            Post(body, accessToken).trace ==
              Process(items[..k + 1], step).events + [Log(ProcessingError(step(items[k]).fault.value))])
      && Requests(Post(body, accessToken).trace) == ExpectedAll(items[..k], ExpectedOf(accessToken))
  {
    var items := WorkList(body);
    var step := StepOf(accessToken);
    StepIssuesExpected(accessToken);
    ProcessFirstFault(items, step, ExpectedOf(accessToken));
    var run := Process(items, step);
    var k := FirstFault(items, step);
    if run.fault.Some? {
      assert Process(items[..k + 1], step) == Then(Process(items[..k], step), step(items[k])) by {
        assert items[..k + 1][..k] == items[..k];
      }
      ProcessFirstFault(items[..k], step, ExpectedOf(accessToken));
      assert items[..k][..k] == items[..k];
      RequestsAppend(run.events, [Log(ProcessingError(run.fault.value))]);
    }
  }

  /** A change's messages are handled once each, in order, with its metadata, and then its statuses. */
  lemma ChangeOrder(c: Change)
    requires c.field == Some(MessagesField) && c.value.Some?
    ensures var v := c.value.value;
      var ms := if v.messages.Some? then v.messages.value else [];
      var ss := if v.statuses.Some? then v.statuses.value else [];
      && |ChangeItems(c)| == |ms| + |ss|
      && (forall i :: 0 <= i < |ms| ==> ChangeItems(c)[i] == MessageItem(ms[i], v.metadata))
      && (forall j :: 0 <= j < |ss| ==> ChangeItems(c)[|ms| + j] == StatusItem(ss[j]))
  {
  }

  // ----- The handler as the source writes it: one loop per `forEach`. -----

  /** The POST handler: the `object` check, then the entries, with any throw turned into 500. */
  method HandlePost(body: WebhookBody, accessToken: string) returns (response: Response)
    ensures response == Post(body, accessToken)
  {
    if body.objectKind != Some(PlatformObject) {
      return Response(404, [Log(NonPlatformEvent)]);
    }
    var run: Run;
    if body.entry.None? {
      run := Throw(MissingEntry);
      assert [Malformed(MissingEntry)][..0] == [];
    } else {
      run := ProcessEntries(body.entry.value, accessToken);
    }
    if run.fault.None? {
      response := Response(200, run.events);
    } else {
      response := Response(500, run.events + [Log(ProcessingError(run.fault.value))]);
    }
  }

  /** Once the work up to `xs[..i + 1]` has thrown, the work of all of `xs` gives the same run. */
  lemma FlatMapStops<T>(xs: seq<T>, i: nat, f: T -> seq<WorkItem>, step: WorkItem -> Run)
    requires i < |xs|
    requires Process(FlatMap(xs[..i + 1], f), step).fault.Some?
    ensures Process(FlatMap(xs, f), step) == Process(FlatMap(xs[..i + 1], f), step)
  {
    assert xs == xs[..i + 1] + xs[i + 1..];
    FlatMapAppend(xs[..i + 1], xs[i + 1..], f);
    assert FlatMap(xs, f)[..|FlatMap(xs[..i + 1], f)|] == FlatMap(xs[..i + 1], f);
    StopsAtFault(FlatMap(xs, f), |FlatMap(xs[..i + 1], f)|, step);
  }

  /** `body.entry.forEach(...)`. */
  method ProcessEntries(entries: seq<Entry>, accessToken: string) returns (run: Run)
    ensures run == Process(FlatMap(entries, EntryItems), StepOf(accessToken))
  {
    run := Run([], None);
    var i := 0;
    while i < |entries|
      invariant 0 <= i <= |entries|
      invariant run == Process(FlatMap(entries[..i], EntryItems), StepOf(accessToken))
      invariant run.fault.None?
    {
      var r := ProcessEntry(entries[i], accessToken);
      assert entries[..i + 1][..i] == entries[..i];
      ProcessAppend(FlatMap(entries[..i], EntryItems), EntryItems(entries[i]), StepOf(accessToken));
      run := Then(run, r);
      if run.fault.Some? {
        FlatMapStops(entries, i, EntryItems, StepOf(accessToken));
        return;
      }
      i := i + 1;
    }
    assert entries[..i] == entries;
  }

  /** One entry: `entry.changes.forEach(...)`, which throws when `changes` is absent. */
  method ProcessEntry(entry: Entry, accessToken: string) returns (run: Run)
    ensures run == Process(EntryItems(entry), StepOf(accessToken))
  {
    if entry.changes.None? {
      run := Throw(MissingChanges);
      assert [Malformed(MissingChanges)][..0] == [];
    } else {
      run := ProcessChanges(entry.changes.value, accessToken);
    }
  }

  method ProcessChanges(changes: seq<Change>, accessToken: string) returns (run: Run)
    ensures run == Process(FlatMap(changes, ChangeItems), StepOf(accessToken))
  {
    run := Run([], None);
    var i := 0;
    while i < |changes|
      invariant 0 <= i <= |changes|
      invariant run == Process(FlatMap(changes[..i], ChangeItems), StepOf(accessToken))
      invariant run.fault.None?
    {
      var r := ProcessChange(changes[i], accessToken);
      assert changes[..i + 1][..i] == changes[..i];
      ProcessAppend(FlatMap(changes[..i], ChangeItems), ChangeItems(changes[i]), StepOf(accessToken));
      run := Then(run, r);
      if run.fault.Some? {
        FlatMapStops(changes, i, ChangeItems, StepOf(accessToken));
        return;
      }
      i := i + 1;
    }
    assert changes[..i] == changes;
  }

  /** One change: only `messages` changes are handled; their messages first, then their statuses. */
  method ProcessChange(change: Change, accessToken: string) returns (run: Run)
    ensures run == Process(ChangeItems(change), StepOf(accessToken))
  {
    if change.field != Some(MessagesField) {
      return Run([], None);
    }
    if change.value.None? {
      assert [Malformed(MissingValue)][..0] == [];
      return Throw(MissingValue);
    }
    var value := change.value.value;
    ghost var ms: seq<WorkItem> := [];
    ghost var ss: seq<WorkItem> := if value.statuses.Some? then StatusItems(value.statuses.value) else [];
    run := Run([], None);
    if value.messages.Some? {
      ms := MessageItems(value.messages.value, value.metadata);
      run := ProcessMessages(value.messages.value, value.metadata, accessToken);
      if run.fault.Some? {
        assert (ms + ss)[..|ms|] == ms;
        StopsAtFault(ms + ss, |ms|, StepOf(accessToken));
        return;
      }
    }
    if value.statuses.Some? {
      var r := ProcessStatuses(value.statuses.value, accessToken);
      run := Then(run, r);
    }
    ProcessAppend(ms, ss, StepOf(accessToken));
  }

  /** `value.messages.forEach(...)`: each message is logged, then handled. */
  method ProcessMessages(messages: seq<Message>, metadata: Option<Metadata>, accessToken: string) returns (run: Run)
    ensures run == Process(MessageItems(messages, metadata), StepOf(accessToken))
  {
    ghost var items := MessageItems(messages, metadata);
    run := Run([], None);
    var i := 0;
    while i < |messages|
      invariant 0 <= i <= |messages|
      invariant run == Process(items[..i], StepOf(accessToken))
      invariant run.fault.None?
    {
      var m := messages[i];
      var received := Emit(MessageReceived(m.sender, m.kind, m.timestamp, m.id));
      var handled := HandleMessage(m, metadata, accessToken);
      ThenAssociative(run, received, handled);
      assert StepOf(accessToken)(items[i]) == Then(received, handled);
      ProcessSnoc(items, i, StepOf(accessToken));
      run := Then(Then(run, received), handled);
      if run.fault.Some? {
        StopsAtFault(items, i + 1, StepOf(accessToken));
        return;
      }
      i := i + 1;
    }
    assert items[..i] == items;
  }

  /** `value.statuses.forEach(...)`: each status is logged, then handled; this never throws. */
  method ProcessStatuses(statuses: seq<Status>, accessToken: string) returns (run: Run)
    ensures run == Process(StatusItems(statuses), StepOf(accessToken))
    ensures run.fault.None?
  {
    ghost var items := StatusItems(statuses);
    run := Run([], None);
    var i := 0;
    while i < |statuses|
      invariant 0 <= i <= |statuses|
      invariant run == Process(items[..i], StepOf(accessToken))
      invariant run.fault.None?
    {
      var s := statuses[i];
      run := Then(run, Run([Log(StatusReceived(s.id, s.status, s.timestamp))] + HandleStatus(s), None));
      assert items[..i + 1][..i] == items[..i];
      i := i + 1;
    }
    assert items[..i] == items;
  }
}
