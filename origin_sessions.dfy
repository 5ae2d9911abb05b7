/** A connection in the document-backed server: a `session` document whose
    `input` field queues the events the client sent until the input task drains
    them, plus the messages emitted back to the client. */
module OriginSessions {
  import opened Wrappers
  import opened JsonData
  import opened Text
  import opened Documents
  import opened GameSessions

  /** `sid`: the part of the document id after its first "/". An id without a
      "/" makes the indexing raise. */
  function Sid(id: string): (r: Option<string>)
    ensures r.None? <==> '/' !in id
    ensures r.Some? ==> |r.value| < |id| && id[|id| - |r.value|..] == r.value
    ensures r.Some? ==> id[|id| - |r.value| - 1] == '/' && '/' !in id[..|id| - |r.value| - 1]
  {
    if '/' in id then
      var parts := SplitFirst(id, '/');
      assert id == parts.0 + ['/'] + parts.1;
      assert id[|parts.0| + 1..] == parts.1;
      assert id[..|parts.0|] == parts.0;
      Some(parts.1)
    else None
  }

  /** One queued event as `handle_event` stores it: the list `[event, message]`. */
  function Entry(event: string, message: Json): Json {
    JArr([JStr(event), message])
  }

  /** The queued events of document `id`: an absent `input` field reads as the
      empty list; a value that is not a list cannot be appended to (None). */
  function QueueOf(docs: Docs, id: string): Option<seq<Json>> {
    var v := FieldOf(docs, id, "input", JArr([]));
    if v.JArr? then Some(v.items) else None
  }

  /** The database after `handle_event(event, message)` on session `id`. */
  function WithEvent(docs: Docs, id: string, event: string, message: Json): Docs
    requires QueueOf(docs, id).Some?
  {
    WithField(docs, id, "input", JArr(QueueOf(docs, id).value + [Entry(event, message)]))
  }

  /** One `handle_event` puts its entry at the back of the queue. */
  lemma WithEventQueue(docs: Docs, id: string, event: string, message: Json)
    requires QueueOf(docs, id).Some?
    ensures QueueOf(WithEvent(docs, id, event, message), id) == Some(QueueOf(docs, id).value + [Entry(event, message)])
  {
    WithFieldReads(docs, id, "input", JArr(QueueOf(docs, id).value + [Entry(event, message)]), id, "input", JArr([]));
  }

  /** `handle_event` called once per element of `events`, in order. */
  function WithEvents(docs: Docs, id: string, events: seq<(string, Json)>): Docs
    requires QueueOf(docs, id).Some?
    decreases |events|
  {
    if events == [] then docs
    else
      var next := WithEvent(docs, id, events[0].0, events[0].1);
      WithEventQueue(docs, id, events[0].0, events[0].1);
      WithEvents(next, id, events[1..])
  }

  /** The queue entries for a list of (event, message) pairs. */
  function Entries(events: seq<(string, Json)>): (r: seq<Json>)
    ensures |r| == |events|
    ensures forall i :: 0 <= i < |events| ==> r[i] == Entry(events[i].0, events[i].1)
  {
    if events == [] then [] else [Entry(events[0].0, events[0].1)] + Entries(events[1..])
  }

  /** N calls of `handle_event` leave the N entries at the end of the queue in call
      order, with the entries already queued in front of them. */
  lemma {:induction false} WithEventsAppends(docs: Docs, id: string, events: seq<(string, Json)>)
    requires QueueOf(docs, id).Some?
    ensures QueueOf(WithEvents(docs, id, events), id) == Some(QueueOf(docs, id).value + Entries(events))
    decreases |events|
  {
    var q := QueueOf(docs, id).value;
    if events == [] {
      assert q + Entries(events) == q;
    } else {
      var e := Entry(events[0].0, events[0].1);
      var next := WithEvent(docs, id, events[0].0, events[0].1);
      var rest := Entries(events[1..]);
      assert QueueOf(next, id) == Some(q + [e]) by {
        WithEventQueue(docs, id, events[0].0, events[0].1);
      }
      WithEventsAppends(next, id, events[1..]);
      assert Entries(events) == [e] + rest;
      AppendAssoc(q, [e], rest);
    }
  }

  lemma AppendAssoc(a: seq<Json>, b: seq<Json>, c: seq<Json>)
    ensures (a + b) + c == a + (b + c)
  {
  }

  /** `handle_event` touches no field but the `input` of its own session. */
  lemma {:induction false} WithEventsKeeps(docs: Docs, id: string, events: seq<(string, Json)>, id2: string, name: string)
    requires QueueOf(docs, id).Some? && (id2 != id || name != "input")
    ensures FieldOf(WithEvents(docs, id, events), id2, name, JNull) == FieldOf(docs, id2, name, JNull)
    decreases |events|
  {
    if events != [] {
      var q := QueueOf(docs, id).value;
      var next := WithEvent(docs, id, events[0].0, events[0].1);
      WithFieldReads(docs, id, "input", JArr(q + [Entry(events[0].0, events[0].1)]), id2, name, JNull);
      WithFieldReads(docs, id, "input", JArr(q + [Entry(events[0].0, events[0].1)]), id, "input", JArr([]));
      WithEventsKeeps(next, id, events[1..], id2, name);
    }
  }

  /** A session document and the client it talks to. */
  class Session {
    const id: string
    const store: DocumentStore
    /** The events emitted to the client, oldest first. */
    var emitted: seq<Message>
    /** The names of the parsers started on this session, in order. */
    var started: seq<string>

    constructor (id: string, store: DocumentStore)
      ensures this.id == id && this.store == store && emitted == [] && started == []
    {
      this.id := id;
      this.store := store;
      emitted := [];
      started := [];
    }

    /** `handle_event`: read the queue, append `[event, message]`, write it back. */
    method HandleEvent(event: string, message: Json) returns (ok: bool)
      modifies store
      ensures ok <==> QueueOf(old(store.docs), id).Some?
      ensures ok ==> store.docs == WithEvent(old(store.docs), id, event, message)
      ensures !ok ==> store.docs == old(store.docs)
    {
      var queue := QueueOf(store.docs, id);
      if queue.None? {
        return false;
      }
      store.SetField(id, "input", JArr(queue.value + [Entry(event, message)]));
      return true;
    }

    /** `send_event`: the emit to the client. */
    method SendEvent(event: string, data: Json)
      modifies this
      ensures emitted == old(emitted) + [Message(event, data)] && started == old(started)
    {
      emitted := emitted + [Message(event, data)];
    }

    /** `send_text(text)`: one `Text` event carrying `{"data": text}`. */
    method SendText(text: string)
      modifies this
      ensures emitted == old(emitted) + Texts([text]) && started == old(started)
    {
      SendEvent("Text", TextPayload(text));
      assert Texts([text]) == [Message("Text", TextPayload(text))];
    }

    /** `send_gmcp(cmd, data)`: one `GMCP` event carrying `{"cmd": cmd, "data": data}`. */
    method SendGmcp(cmd: string, data: Json := JNull)
      modifies this
      ensures emitted == old(emitted) + [Message("GMCP", GmcpPayload(cmd, data))] && started == old(started)
    {
      SendEvent("GMCP", GmcpPayload(cmd, data));
    }

    /** `start`: the login parser takes the new connection. */
    method Start()
      modifies this
      ensures started == old(started) + ["login"] && emitted == old(emitted)
    {
      started := started + ["login"];
    }

    /** `login(user)`: record the user on the session document, then start the
        main menu. */
    method Login(user: string)
      modifies this, store
      ensures store.docs == WithField(old(store.docs), id, "user", JStr(user))
      ensures started == old(started) + ["main_menu"] && emitted == old(emitted)
    {
      store.SetField(id, "user", JStr(user));
      started := started + ["main_menu"];
    }
  }
}
