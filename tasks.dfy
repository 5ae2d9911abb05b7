/** The two periodic tasks that empty the queues kept in documents. The session
    input task takes every queued event of every session in one statement and
    then executes them session by session, in queue order; the simulation task
    takes the first pending command of every object and executes it. Each task's
    statement is one atomic update of the database; `order` is the order in which
    the statement visits the collection, which lists every document once. */
module Tasks {
  import opened Wrappers
  import opened JsonData
  import opened Documents
  import opened OriginSessions
  import OriginEvents

  // ---------------------------------------------------------------------------
  // Session input

  /** `[doc._id, sess_input, doc.proxy]`: one returned row. */
  datatype InputRow = InputRow(id: string, events: seq<Json>, proxy: Json)

  function PendingInput(docs: Docs, id: string): seq<Json> {
    Items(FieldOf(docs, id, "input", JNull))
  }

  /** `FILTER COUNT(doc.input) > 0`. */
  predicate HasInput(docs: Docs, id: string) {
    id in docs && |PendingInput(docs, id)| > 0
  }

  /** The rows the statement returns, in visiting order: one per session with
      queued input, carrying the whole queue as it was before the update. */
  function InputRows(docs: Docs, order: seq<string>): (rows: seq<InputRow>)
    ensures |rows| <= |order|
    ensures forall k :: 0 <= k < |rows| ==>
      rows[k].id in order && HasInput(docs, rows[k].id)
      && rows[k].events == PendingInput(docs, rows[k].id) && rows[k].proxy == FieldOf(docs, rows[k].id, "proxy", JNull)
  {
    if order == [] then []
    else
      (if HasInput(docs, order[0])
       then [InputRow(order[0], PendingInput(docs, order[0]), FieldOf(docs, order[0], "proxy", JNull))]
       else [])
      + InputRows(docs, order[1..])
  }

  /** Every visited session with queued input has a row. */
  lemma {:induction false} InputRowsComplete(docs: Docs, order: seq<string>, id: string)
    requires id in order && HasInput(docs, id)
    ensures exists k :: 0 <= k < |InputRows(docs, order)| && InputRows(docs, order)[k].id == id
  {
    if order[0] == id {
      assert InputRows(docs, order)[0].id == id;
    } else {
      InputRowsComplete(docs, order[1..], id);
      var k :| 0 <= k < |InputRows(docs, order[1..])| && InputRows(docs, order[1..])[k].id == id;
      var head := if HasInput(docs, order[0]) then 1 else 0;
      assert InputRows(docs, order)[head + k] == InputRows(docs, order[1..])[k];
    }
  }

  /** `UPDATE doc WITH {input: [], last_activity: DATE_NOW()}`. */
  function Drained(doc: Doc, now: Json): Doc {
    doc["input" := JArr([])]["last_activity" := now]
  }

  /** The database after the statement: the visited sessions with queued input
      are drained, every other document is untouched. */
  function ClearInputs(docs: Docs, order: seq<string>, now: Json): (r: Docs)
    ensures r.Keys == docs.Keys
  {
    map id | id in docs :: if id in order && HasInput(docs, id) then Drained(docs[id], now) else docs[id]
  }

  /** After the statement no visited session has queued input, and a session
      without input, or not visited, is exactly as it was. */
  lemma ClearInputsEffect(docs: Docs, order: seq<string>, now: Json, id: string)
    requires id in docs
    ensures id in order ==> !HasInput(ClearInputs(docs, order, now), id)
    ensures !(id in order && HasInput(docs, id)) ==> ClearInputs(docs, order, now)[id] == docs[id]
    ensures id in order && HasInput(docs, id) ==> FieldOf(ClearInputs(docs, order, now), id, "last_activity", JNull) == now
  {
  }

  /** One event execution: the session and the `[event, message]` pair. */
  datatype Delivery = Delivery(id: string, event: Json, message: Json)

  /** `for event, message in events` unpacks a two-element list. */
  function Unpack(entry: Json): Option<(Json, Json)> {
    if entry.JArr? && |entry.items| == 2 then Some((entry.items[0], entry.items[1])) else None
  }

  /** One entry of a session's list: an entry that does not unpack raises, which
      ends the run (the flag); an entry that unpacks is executed, and ends the
      run when its handler raises (`raises`, nothing catches it); once raised,
      nothing more happens. */
  function DeliverStep(before: (seq<Delivery>, bool), id: string, entry: Json, raises: Delivery -> bool): (seq<Delivery>, bool) {
    if before.1 then before
    else
      match Unpack(entry)
      case None => (before.0, true)
      case Some(pair) =>
        var d := Delivery(id, pair.0, pair.1);
        (before.0 + [d], raises(d))
  }

  /** The executions of one session's events, in list order. */
  function RowDeliveries(id: string, events: seq<Json>, raises: Delivery -> bool): (r: (seq<Delivery>, bool))
    ensures |r.0| <= |events|
    decreases |events|
  {
    if events == [] then ([], false)
    else DeliverStep(RowDeliveries(id, events[..|events| - 1], raises), id, events[|events| - 1], raises)
  }

  lemma RowDeliveriesSnoc(id: string, events: seq<Json>, raises: Delivery -> bool, j: nat)
    requires j < |events|
    ensures RowDeliveries(id, events[..j + 1], raises) == DeliverStep(RowDeliveries(id, events[..j], raises), id, events[j], raises)
  {
    assert events[..j + 1][..j] == events[..j];
  }

  /** Once a row's entries raise, the later entries change nothing. */
  lemma {:induction false} RowDeliveriesStop(id: string, events: seq<Json>, raises: Delivery -> bool, n: nat)
    requires n <= |events| && RowDeliveries(id, events[..n], raises).1
    ensures RowDeliveries(id, events, raises) == RowDeliveries(id, events[..n], raises)
    decreases |events| - n
  {
    if n == |events| {
      assert events[..n] == events;
    } else {
      RowDeliveriesSnoc(id, events, raises, n);
      RowDeliveriesStop(id, events, raises, n + 1);
    }
  }

  /** One row of the run: its handle is looked up by its stored tag, and an
      unregistered tag raises, as does a bad entry or a raising handler. */
  function RunStep(before: (seq<Delivery>, bool), row: InputRow, proxies: set<string>, raises: Delivery -> bool): (seq<Delivery>, bool) {
    if before.1 then before
    else if !(row.proxy.JStr? && row.proxy.s in proxies) then (before.0, true)
    else
      var mine := RowDeliveries(row.id, row.events, raises);
      (before.0 + mine.0, mine.1)
  }

  /** The whole run over the returned rows. */
  function RunDeliveries(rows: seq<InputRow>, proxies: set<string>, raises: Delivery -> bool): (seq<Delivery>, bool)
    decreases |rows|
  {
    if rows == [] then ([], false)
    else RunStep(RunDeliveries(rows[..|rows| - 1], proxies, raises), rows[|rows| - 1], proxies, raises)
  }

  lemma RunDeliveriesSnoc(rows: seq<InputRow>, proxies: set<string>, raises: Delivery -> bool, i: nat)
    requires i < |rows|
    ensures RunDeliveries(rows[..i + 1], proxies, raises) == RunStep(RunDeliveries(rows[..i], proxies, raises), rows[i], proxies, raises)
  {
    assert rows[..i + 1][..i] == rows[..i];
  }

  /** Once the run raises, the later rows change nothing. */
  lemma {:induction false} RunDeliveriesStop(rows: seq<InputRow>, proxies: set<string>, raises: Delivery -> bool, n: nat)
    requires n <= |rows| && RunDeliveries(rows[..n], proxies, raises).1
    ensures RunDeliveries(rows, proxies, raises) == RunDeliveries(rows[..n], proxies, raises)
    decreases |rows| - n
  {
    if n == |rows| {
      assert rows[..n] == rows;
    } else {
      RunDeliveriesSnoc(rows, proxies, raises, n);
      RunDeliveriesStop(rows, proxies, raises, n + 1);
    }
  }

  /** Executing the deliveries `ds` in order until one raises: the executed
      ones are a prefix of `ds`, ending with the first that raises; when none
      raises, all of `ds`. */
  function UntilRaise(ds: seq<Delivery>, raises: Delivery -> bool): (r: (seq<Delivery>, bool))
    ensures r.0 <= ds
    ensures r.1 <==> exists i :: 0 <= i < |ds| && raises(ds[i])
    ensures r.1 ==> |r.0| > 0 && raises(r.0[|r.0| - 1]) && forall i :: 0 <= i < |r.0| - 1 ==> !raises(r.0[i])
    ensures !r.1 ==> r.0 == ds
    decreases |ds|
  {
    if ds == [] then ([], false)
    else
      var before := UntilRaise(ds[..|ds| - 1], raises);
      if before.1 then before else (ds, raises(ds[|ds| - 1]))
  }

  /** The deliveries N `handle_event` calls lead to. */
  function EventDeliveries(id: string, events: seq<(string, Json)>): (r: seq<Delivery>)
    ensures |r| == |events|
    ensures forall i :: 0 <= i < |events| ==> r[i] == Delivery(id, JStr(events[i].0), events[i].1)
  {
    if events == [] then []
    else EventDeliveries(id, events[..|events| - 1]) + [Delivery(id, JStr(events[|events| - 1].0), events[|events| - 1].1)]
  }

  /** The entries `handle_event` writes always unpack, into the event and the
      message, in the order they were queued. */
  lemma {:induction false} EntriesDeliver(id: string, events: seq<(string, Json)>, raises: Delivery -> bool)
    ensures RowDeliveries(id, Entries(events), raises) == UntilRaise(EventDeliveries(id, events), raises)
    decreases |events|
  {
    if events != [] {
      var n := |events|;
      var init := events[..n - 1];
      var ds := EventDeliveries(id, events);
      var d := Delivery(id, JStr(events[n - 1].0), events[n - 1].1);
      assert Entries(events)[..n - 1] == Entries(init);
      assert ds[..n - 1] == EventDeliveries(id, init);
      assert Unpack(Entries(events)[n - 1]) == Some((JStr(events[n - 1].0), events[n - 1].1));
      EntriesDeliver(id, init, raises);
      var prev := UntilRaise(EventDeliveries(id, init), raises);
      assert RowDeliveries(id, Entries(events), raises) == DeliverStep(prev, id, Entries(events)[n - 1], raises);
      if !prev.1 {
        assert prev.0 + [d] == ds;
      }
    }
  }

  /** A session with queued input that is the only one visited gives one row. */
  lemma SingleInputRow(docs: Docs, id: string)
    requires HasInput(docs, id)
    ensures InputRows(docs, [id]) == [InputRow(id, PendingInput(docs, id), FieldOf(docs, id, "proxy", JNull))]
  {
    assert [id][1..] == [];
  }

  /** A run over one row with a registered tag is that row's deliveries. */
  lemma SingleRun(row: InputRow, proxies: set<string>, raises: Delivery -> bool)
    requires row.proxy.JStr? && row.proxy.s in proxies
    ensures RunDeliveries([row], proxies, raises) == RowDeliveries(row.id, row.events, raises)
  {
    assert [row][..0] == [];
    assert [] + RowDeliveries(row.id, row.events, raises).0 == RowDeliveries(row.id, row.events, raises).0;
  }

  /** N calls of `handle_event` on a session whose queue was empty, then one run
      of the input task: the N events are executed in call order, each at most
      once, up to and including the first whose handler raises, which ends the
      run; when none raises, all N are executed. Either way the queue is empty
      again, so the events after a raising one are lost. */
  lemma FifoDelivery(docs: Docs, id: string, events: seq<(string, Json)>, now: Json, proxies: set<string>, raises: Delivery -> bool)
    requires QueueOf(docs, id) == Some([]) && |events| > 0
    requires FieldOf(docs, id, "proxy", JNull).JStr? && FieldOf(docs, id, "proxy", JNull).s in proxies
    ensures RunDeliveries(InputRows(WithEvents(docs, id, events), [id]), proxies, raises) == UntilRaise(EventDeliveries(id, events), raises)
    ensures (forall i :: 0 <= i < |events| ==> !raises(Delivery(id, JStr(events[i].0), events[i].1)))
      ==> RunDeliveries(InputRows(WithEvents(docs, id, events), [id]), proxies, raises) == (EventDeliveries(id, events), false)
    ensures !HasInput(ClearInputs(WithEvents(docs, id, events), [id], now), id)
  {
    var after := WithEvents(docs, id, events);
    QueuedRow(docs, id, events);
    SingleRun(InputRow(id, Entries(events), FieldOf(docs, id, "proxy", JNull)), proxies, raises);
    EntriesDeliver(id, events, raises);
    ClearInputsEffect(after, [id], now, id);
  }

  /** N `handle_event` calls on a session whose queue was empty: the
      statement returns one row for it, holding exactly the N entries and its
      tag. */
  lemma QueuedRow(docs: Docs, id: string, events: seq<(string, Json)>)
    requires QueueOf(docs, id) == Some([]) && |events| > 0
    ensures HasInput(WithEvents(docs, id, events), id)
    ensures InputRows(WithEvents(docs, id, events), [id]) == [InputRow(id, Entries(events), FieldOf(docs, id, "proxy", JNull))]
  {
    var after := WithEvents(docs, id, events);
    WithEventsAppends(docs, id, events);
    WithEventsKeeps(docs, id, events, id, "proxy");
    assert [] + Entries(events) == Entries(events);
    assert FieldOf(after, id, "input", JArr([])) == JArr(Entries(events));
    assert id in after && "input" in after[id];
    assert PendingInput(after, id) == Entries(events);
    SingleInputRow(after, id);
  }

  /** The `Command` handler raises on a message whose "data" is not text: it
      calls `startswith` on it. */
  predicate CommandRaises(d: Delivery) {
    d.event == JStr("Command") && OriginEvents.CommandText(d.message).None?
  }

  /** A command whose "data" is a number, then the command "look". */
  const NumberThenLook: seq<(string, Json)> :=
    [("Command", JObj(map["data" := JInt(5)])), ("Command", JObj(map["data" := JStr("look")]))]

  /** Those two queued on a session, then one run: the first is executed and
      raises, which ends the run, and "look" is never executed although the
      statement has taken it off the queue. */
  lemma NonTextCommandLosesLater(docs: Docs, id: string, now: Json, proxies: set<string>)
    requires QueueOf(docs, id) == Some([])
    requires FieldOf(docs, id, "proxy", JNull).JStr? && FieldOf(docs, id, "proxy", JNull).s in proxies
    ensures RunDeliveries(InputRows(WithEvents(docs, id, NumberThenLook), [id]), proxies, CommandRaises)
      == ([Delivery(id, JStr("Command"), JObj(map["data" := JInt(5)]))], true)
    ensures !HasInput(ClearInputs(WithEvents(docs, id, NumberThenLook), [id], now), id)
  {
    FifoDelivery(docs, id, NumberThenLook, now, proxies, CommandRaises);
    var ds := EventDeliveries(id, NumberThenLook);
    var r := UntilRaise(ds, CommandRaises);
    assert CommandRaises(ds[0]);
    assert |r.0| == 1 by {
      if |r.0| == 2 {
        assert r.0[0] == ds[0];
      }
    }
    assert r.0 == [ds[0]];
  }

  /** The executions of one row's events. */
  method DeliverRow(id: string, events: seq<Json>, raises: Delivery -> bool) returns (mine: seq<Delivery>, bad: bool)
    ensures (mine, bad) == RowDeliveries(id, events, raises)
  {
    mine, bad := [], false;
    var j := 0;
    while j < |events| && !bad
      invariant 0 <= j <= |events|
      invariant (mine, bad) == RowDeliveries(id, events[..j], raises)
    {
      RowDeliveriesSnoc(id, events, raises, j);
      var pair := Unpack(events[j]);
      if pair.None? {
        bad := true;
      } else {
        var d := Delivery(id, pair.value.0, pair.value.1);
        mine := mine + [d];
        bad := raises(d);
      }
      j := j + 1;
    }
    if bad {
      RowDeliveriesStop(id, events, raises, j);
    } else {
      assert events[..j] == events;
    }
  }

  /** `SessionInput.run`: one statement drains every queue, then the taken
      events are executed, session by session and in queue order, until one
      raises; `raises` says which executions raise. */
  method SessionInputRun(store: DocumentStore, order: seq<string>, now: Json, proxies: set<string>, raises: Delivery -> bool)
    returns (delivered: seq<Delivery>, aborted: bool)
    modifies store
    ensures store.docs == ClearInputs(old(store.docs), order, now)
    ensures (delivered, aborted) == RunDeliveries(InputRows(old(store.docs), order), proxies, raises)
  {
    var rows := InputRows(store.docs, order);
    store.docs := ClearInputs(store.docs, order, now);
    delivered, aborted := [], false;
    var i := 0;
    while i < |rows| && !aborted
      invariant 0 <= i <= |rows|
      invariant store.docs == ClearInputs(old(store.docs), order, now)
      invariant (delivered, aborted) == RunDeliveries(rows[..i], proxies, raises)
    {
      RunDeliveriesSnoc(rows, proxies, raises, i);
      var row := rows[i];
      ghost var before := (delivered, aborted);
      if !(row.proxy.JStr? && row.proxy.s in proxies) {
        aborted := true;
      } else {
        var mine, bad := DeliverRow(row.id, row.events, raises);
        delivered := delivered + mine;
        aborted := bad;
      }
      assert (delivered, aborted) == RunStep(before, row, proxies, raises);
      i := i + 1;
    }
    if aborted {
      RunDeliveriesStop(rows, proxies, raises, i);
    } else {
      assert rows[..i] == rows;
    }
  }

  /** One row of the input task as written: `AUTOPROXY[proxy](docid, core.db)`
      raises for an unregistered tag (the lookup), and for a registered one too,
      because `DocumentProxy.__init__` reads `data.get("_id")` from the id string. */
  function RunStepAsWritten(before: (seq<Delivery>, bool), row: InputRow): (seq<Delivery>, bool) {
    if before.1 then before else (before.0, true)
  }

  /** The input task's run over the returned rows, as written. */
  function RunDeliveriesAsWritten(rows: seq<InputRow>): (seq<Delivery>, bool)
    decreases |rows|
  {
    if rows == [] then ([], false)
    else RunStepAsWritten(RunDeliveriesAsWritten(rows[..|rows| - 1]), rows[|rows| - 1])
  }

  /** As written, the input task executes no event, and raises as soon as the
      statement returns a row. */
  lemma {:induction false} AsWrittenDeliversNothing(rows: seq<InputRow>)
    ensures RunDeliveriesAsWritten(rows) == ([], rows != [])
    decreases |rows|
  {
    if rows != [] {
      AsWrittenDeliversNothing(rows[..|rows| - 1]);
    }
  }

  /** N calls of `handle_event` on a session whose queue was empty, then one run
      of the input task as written: the statement empties the queue, the run
      raises on the session's row, and none of the N events is executed. */
  lemma AsWrittenLosesEvents(docs: Docs, id: string, events: seq<(string, Json)>, now: Json)
    requires QueueOf(docs, id) == Some([]) && |events| > 0
    ensures RunDeliveriesAsWritten(InputRows(WithEvents(docs, id, events), [id])) == ([], true)
    ensures !HasInput(ClearInputs(WithEvents(docs, id, events), [id], now), id)
  {
    var after := WithEvents(docs, id, events);
    QueuedRow(docs, id, events);
    AsWrittenDeliversNothing(InputRows(after, [id]));
    ClearInputsEffect(after, [id], now, id);
  }


  // ---------------------------------------------------------------------------
  // Simulation commands

  /** `[doc._id, command, doc.proxy]`. */
  datatype CommandRow = CommandRow(id: string, command: Json, proxy: Json)

  function PendingCommands(docs: Docs, id: string): seq<Json> {
    Items(FieldOf(docs, id, "pending_commands", JNull))
  }

  predicate HasCommands(docs: Docs, id: string) {
    id in docs && |PendingCommands(docs, id)| > 0
  }

  /** The rows of the statement: the first pending command of every visited
      object that has one. */
  function CommandRows(docs: Docs, order: seq<string>): (rows: seq<CommandRow>)
    ensures |rows| <= |order|
    ensures forall k :: 0 <= k < |rows| ==>
      rows[k].id in order && HasCommands(docs, rows[k].id)
      && rows[k].command == PendingCommands(docs, rows[k].id)[0] && rows[k].proxy == FieldOf(docs, rows[k].id, "proxy", JNull)
  {
    if order == [] then []
    else
      (if HasCommands(docs, order[0])
       then [CommandRow(order[0], PendingCommands(docs, order[0])[0], FieldOf(docs, order[0], "proxy", JNull))]
       else [])
      + CommandRows(docs, order[1..])
  }

  /** `UPDATE doc WITH {pending_commands: SHIFT(...), last_activity: DATE_NOW()}`. */
  function Shifted(doc: Doc, pending: seq<Json>, now: Json): Doc
    requires |pending| > 0
  {
    doc["pending_commands" := JArr(pending[1..])]["last_activity" := now]
  }

  /** The database after the statement. */
  function ShiftCommands(docs: Docs, order: seq<string>, now: Json): (r: Docs)
    ensures r.Keys == docs.Keys
  {
    map id | id in docs :: if id in order && HasCommands(docs, id) then Shifted(docs[id], PendingCommands(docs, id), now) else docs[id]
  }

  /** One command execution: the object and the command taken from its queue. */
  datatype Execution = Execution(id: string, command: Json)

  /** One row of the run: the handle comes from the stored tag, and an
      unregistered tag raises, ending the run (the flag); otherwise the command
      is executed, and ends the run when `execute_cmd` raises (`raises`,
      nothing catches it). */
  function ExecStep(before: (seq<Execution>, bool), row: CommandRow, proxies: set<string>, raises: Execution -> bool): (seq<Execution>, bool) {
    if before.1 then before
    else if !(row.proxy.JStr? && row.proxy.s in proxies) then (before.0, true)
    else
      var e := Execution(row.id, row.command);
      (before.0 + [e], raises(e))
  }

  /** The run over the rows. */
  function RunExecutions(rows: seq<CommandRow>, proxies: set<string>, raises: Execution -> bool): (r: (seq<Execution>, bool))
    ensures |r.0| <= |rows|
    decreases |rows|
  {
    if rows == [] then ([], false)
    else ExecStep(RunExecutions(rows[..|rows| - 1], proxies, raises), rows[|rows| - 1], proxies, raises)
  }

  lemma RunExecutionsSnoc(rows: seq<CommandRow>, proxies: set<string>, raises: Execution -> bool, i: nat)
    requires i < |rows|
    ensures RunExecutions(rows[..i + 1], proxies, raises) == ExecStep(RunExecutions(rows[..i], proxies, raises), rows[i], proxies, raises)
  {
    assert rows[..i + 1][..i] == rows[..i];
  }

  lemma {:induction false} RunExecutionsStop(rows: seq<CommandRow>, proxies: set<string>, raises: Execution -> bool, n: nat)
    requires n <= |rows| && RunExecutions(rows[..n], proxies, raises).1
    ensures RunExecutions(rows, proxies, raises) == RunExecutions(rows[..n], proxies, raises)
    decreases |rows| - n
  {
    if n == |rows| {
      assert rows[..n] == rows;
    } else {
      RunExecutionsSnoc(rows, proxies, raises, n);
      RunExecutionsStop(rows, proxies, raises, n + 1);
    }
  }

  /** `SimulationCommands.run`: one statement takes every object's first
      pending command, then they are executed in visiting order until one
      raises; `raises` says which executions raise. */
  method SimulationRun(store: DocumentStore, order: seq<string>, now: Json, proxies: set<string>, raises: Execution -> bool)
    returns (executed: seq<Execution>, aborted: bool)
    modifies store
    ensures store.docs == ShiftCommands(old(store.docs), order, now)
    ensures (executed, aborted) == RunExecutions(CommandRows(old(store.docs), order), proxies, raises)
  {
    var rows := CommandRows(store.docs, order);
    store.docs := ShiftCommands(store.docs, order, now);
    executed, aborted := [], false;
    var i := 0;
    while i < |rows| && !aborted
      invariant 0 <= i <= |rows|
      invariant store.docs == ShiftCommands(old(store.docs), order, now)
      invariant (executed, aborted) == RunExecutions(rows[..i], proxies, raises)
    {
      RunExecutionsSnoc(rows, proxies, raises, i);
      var row := rows[i];
      if !(row.proxy.JStr? && row.proxy.s in proxies) {
        aborted := true;
      } else {
        var e := Execution(row.id, row.command);
        executed := executed + [e];
        aborted := raises(e);
      }
      i := i + 1;
    }
    if aborted {
      RunExecutionsStop(rows, proxies, raises, i);
    } else {
      assert rows[..i] == rows;
    }
  }

  /** One run on an object with a registered tag takes exactly its first pending
      command, executes it, raises iff that execution raises, and leaves the rest
      queued. */
  lemma OneShift(docs: Docs, id: string, now: Json, proxies: set<string>, raises: Execution -> bool)
    requires HasCommands(docs, id)
    requires FieldOf(docs, id, "proxy", JNull).JStr? && FieldOf(docs, id, "proxy", JNull).s in proxies
    ensures RunExecutions(CommandRows(docs, [id]), proxies, raises) == ([Execution(id, PendingCommands(docs, id)[0])], raises(Execution(id, PendingCommands(docs, id)[0])))
    ensures PendingCommands(ShiftCommands(docs, [id], now), id) == PendingCommands(docs, id)[1..]
    ensures FieldOf(ShiftCommands(docs, [id], now), id, "proxy", JNull) == FieldOf(docs, id, "proxy", JNull)
  {
    var rows := CommandRows(docs, [id]);
    var row := CommandRow(id, PendingCommands(docs, id)[0], FieldOf(docs, id, "proxy", JNull));
    assert [id][1..] == [];
    assert rows == [row];
    assert rows[..0] == [];
    assert RunExecutions(rows[..0], proxies, raises) == ([], false);
    assert [] + [Execution(id, PendingCommands(docs, id)[0])] == [Execution(id, PendingCommands(docs, id)[0])];
  }

  /** `k` runs of the simulation task over an object: what they execute, and the
      database they leave. A run that raises ends only itself: the next run is a
      new call of the task. */
  function Runs(docs: Docs, id: string, now: Json, proxies: set<string>, raises: Execution -> bool, k: nat): (seq<Execution>, Docs)
  {
    if k == 0 then ([], docs)
    else
      var before := Runs(docs, id, now, proxies, raises, k - 1);
      var run := RunExecutions(CommandRows(before.1, [id]), proxies, raises);
      (before.0 + run.0, ShiftCommands(before.1, [id], now))
  }

  /** The executions of the commands `cmds` of object `id`, in order. */
  function CommandExecutions(id: string, cmds: seq<Json>): (r: seq<Execution>)
    ensures |r| == |cmds|
    ensures forall i :: 0 <= i < |cmds| ==> r[i] == Execution(id, cmds[i])
  {
    if cmds == [] then [] else CommandExecutions(id, cmds[..|cmds| - 1]) + [Execution(id, cmds[|cmds| - 1])]
  }

  /** A queue of N commands is executed over N runs, first in first out, with
      nothing lost or repeated: after k runs the first k have been executed and
      the rest are still queued, whichever of them raise (each run takes one
      command, which is executed before it can raise). */
  lemma {:induction false} FifoCommands(docs: Docs, id: string, now: Json, proxies: set<string>, raises: Execution -> bool, k: nat)
    requires id in docs && k <= |PendingCommands(docs, id)|
    requires FieldOf(docs, id, "proxy", JNull).JStr? && FieldOf(docs, id, "proxy", JNull).s in proxies
    ensures Runs(docs, id, now, proxies, raises, k).0 == CommandExecutions(id, PendingCommands(docs, id)[..k])
    ensures PendingCommands(Runs(docs, id, now, proxies, raises, k).1, id) == PendingCommands(docs, id)[k..]
    ensures id in Runs(docs, id, now, proxies, raises, k).1
    ensures FieldOf(Runs(docs, id, now, proxies, raises, k).1, id, "proxy", JNull) == FieldOf(docs, id, "proxy", JNull)
  {
    var p := PendingCommands(docs, id);
    if k == 0 {
      assert p[..0] == [];
      assert p[0..] == p;
    } else {
      FifoCommands(docs, id, now, proxies, raises, k - 1);
      var before := Runs(docs, id, now, proxies, raises, k - 1);
      assert HasCommands(before.1, id);
      OneShift(before.1, id, now, proxies, raises);
      assert p[k - 1..][1..] == p[k..];
      assert p[..k][..k - 1] == p[..k - 1];
    }
  }

  /** One row of the simulation task as written: the handle is built from the
      id string, which raises as in the input task; and `Object` has no
      `execute_command` to call had it been built. */
  function ExecStepAsWritten(before: (seq<Execution>, bool), row: CommandRow): (seq<Execution>, bool) {
    if before.1 then before else (before.0, true)
  }

  /** The simulation task's run over the returned rows, as written. */
  function RunExecutionsAsWritten(rows: seq<CommandRow>): (seq<Execution>, bool)
    decreases |rows|
  {
    if rows == [] then ([], false)
    else ExecStepAsWritten(RunExecutionsAsWritten(rows[..|rows| - 1]), rows[|rows| - 1])
  }

  /** As written, the simulation task executes no command, and raises as soon as
      the statement returns a row. */
  lemma {:induction false} AsWrittenExecutesNothing(rows: seq<CommandRow>)
    ensures RunExecutionsAsWritten(rows) == ([], rows != [])
    decreases |rows|
  {
    if rows != [] {
      AsWrittenExecutesNothing(rows[..|rows| - 1]);
    }
  }

  /** One run of the simulation task as written on an object with pending
      commands: the first command leaves the queue and is never executed. */
  lemma AsWrittenDropsCommand(docs: Docs, id: string, now: Json)
    requires HasCommands(docs, id)
    ensures RunExecutionsAsWritten(CommandRows(docs, [id])) == ([], true)
    ensures PendingCommands(ShiftCommands(docs, [id], now), id) == PendingCommands(docs, id)[1..]
  {
    var rows := CommandRows(docs, [id]);
    assert [id][1..] == [];
    assert rows == [CommandRow(id, PendingCommands(docs, id)[0], FieldOf(docs, id, "proxy", JNull))];
    AsWrittenExecutesNothing(rows);
  }
}
