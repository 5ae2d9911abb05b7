/** A connected client in the stack-of-parsers server: the frames that own its
    input, the logged-in account, the attached playview and the queue of outgoing
    messages, together with the decision chain that routes each typed line. */
module GameSessions {
  import opened Wrappers
  import opened JsonData
  import opened Text

  /** The account level at which the Python console opens. */
  const DEVELOPER: int := 5

  /** Which parser class a frame on the stack belongs to. */
  datatype FrameKind = LoginFrame | MainMenuFrame | PythonFrame | PlainFrame

  /** One outgoing message: an event name and its payload. */
  datatype Message = Message(event: string, data: Json)

  function TextPayload(text: string): Json {
    JObj(map["data" := JStr(text)])
  }

  /** The `Text` messages that carry each of `texts`, in order. */
  function Texts(texts: seq<string>): (r: seq<Message>)
    ensures |r| == |texts|
    ensures forall i :: 0 <= i < |texts| ==> r[i] == Message("Text", TextPayload(texts[i]))
  {
    if texts == [] then [] else [Message("Text", TextPayload(texts[0]))] + Texts(texts[1..])
  }

  /** Sending two lists of lines one after the other sends their concatenation. */
  lemma {:induction false} TextsAppend(q: seq<Message>, a: seq<string>, b: seq<string>)
    ensures Texts(a + b) == Texts(a) + Texts(b)
    ensures q + Texts(a) + Texts(b) == q + Texts(a + b)
    decreases |a|
  {
    if a == [] {
      assert a + b == b;
    } else {
      assert (a + b)[1..] == a[1..] + b;
      TextsAppend([], a[1..], b);
      MessagesAssoc([Message("Text", TextPayload(a[0]))], Texts(a[1..]), Texts(b));
    }
    MessagesAssoc(q, Texts(a), Texts(b));
  }

  function GmcpPayload(cmd: string, data: Json): Json {
    JObj(map["cmd" := JStr(cmd), "data" := data])
  }

  /** An account that sessions log in to. Only the fields the session logic reads
      are modelled; `sessions` is the set of sessions logged in to it. */
  class Account {
    const username: string
    const isSuperuser: bool
    const level: int
    const passwordHash: string
    var sessions: set<GameSession>
    var owned: seq<string>

    constructor (username: string, isSuperuser: bool, level: int, passwordHash: string)
      ensures this.username == username && this.isSuperuser == isSuperuser
      ensures this.level == level && this.passwordHash == passwordHash
      ensures sessions == {} && owned == []
    {
      this.username := username;
      this.isSuperuser := isSuperuser;
      this.level := level;
      this.passwordHash := passwordHash;
      sessions := {};
      owned := [];
    }
  }

  /** A parser pushed on a session's stack. Python compares frames by identity,
      which is what object references give here. */
  class Frame {
    const session: GameSession
    const kind: FrameKind
    const priority: bool

    constructor (session: GameSession, kind: FrameKind, priority: bool := false)
      ensures this.session == session && this.kind == kind && this.priority == priority
    {
      this.session := session;
      this.kind := kind;
      this.priority := priority;
    }

    /** `close`: the frame's own `on_close` (nothing for a plain frame), then the
        first occurrence of the frame leaves the stack if it is there. */
    method Close()
      modifies session
      ensures session.parserStack == RemoveFirst(old(session.parserStack), this)
      ensures session.outgoing == old(session.outgoing) && session.delivered == old(session.delivered)
      ensures session.user == old(session.user) && session.playview == old(session.playview)
    {
      session.parserStack := RemoveFirst(session.parserStack, this);
    }
  }

  /** The index of the first occurrence of `x` in `s`. */
  function FirstIndex<T(==)>(s: seq<T>, x: T): (i: nat)
    requires x in s
    ensures i < |s| && s[i] == x && x !in s[..i]
  {
    if s[0] == x then 0
    else
      var j := FirstIndex(s[1..], x);
      assert s[..j + 1] == [s[0]] + s[1..][..j];
      j + 1
  }

  /** `list.remove(x)` guarded by `x in list`: drop the first occurrence, if any. */
  function RemoveFirst<T(==)>(s: seq<T>, x: T): (r: seq<T>)
    ensures x !in s ==> r == s
    ensures x in s ==> r == s[..FirstIndex(s, x)] + s[FirstIndex(s, x) + 1..]
  {
    if |s| == 0 then []
    else if s[0] == x then s[1..]
    else
      var t := RemoveFirst(s[1..], x);
      if x in s[1..] then
        var j := FirstIndex(s[1..], x);
        assert FirstIndex(s, x) == j + 1;
        ConsSplit(s, j);
        [s[0]] + t
      else
        assert s == [s[0]] + s[1..];
        [s[0]] + t
  }

  /** Cutting one element out of a sequence's tail, seen from the whole sequence. */
  lemma ConsSplit<T>(s: seq<T>, j: nat)
    requires j + 1 < |s|
    ensures [s[0]] + (s[1..][..j] + s[1..][j + 1..]) == s[..j + 1] + s[j + 2..]
  {
    assert s[..j + 1] == [s[0]] + s[1..][..j];
    assert s[1..][j + 1..] == s[j + 2..];
  }

  /** Removing a present element takes away exactly one copy of it. */
  lemma RemoveFirstCount<T>(s: seq<T>, x: T)
    requires x in s
    ensures |RemoveFirst(s, x)| == |s| - 1
    ensures multiset(RemoveFirst(s, x)) == multiset(s) - multiset{x}
  {
    var i := FirstIndex(s, x);
    var front, back := s[..i], s[i + 1..];
    assert s == front + [x] + back;
    assert multiset(s) == multiset(front) + multiset{x} + multiset(back);
    assert RemoveFirst(s, x) == front + back;
    assert multiset(front + back) == multiset(front) + multiset(back);
  }

  /** Closing a frame that occurs at most once leaves no copy of it behind, so a
      second close changes nothing. */
  lemma {:induction false} CloseTwiceIsNoOp<T>(s: seq<T>, x: T)
    requires multiset(s)[x] <= 1
    ensures x !in RemoveFirst(s, x)
    ensures RemoveFirst(RemoveFirst(s, x), x) == RemoveFirst(s, x)
  {
    var r := RemoveFirst(s, x);
    if x in s {
      RemoveFirstCount(s, x);
      assert multiset(r)[x] == multiset(s)[x] - 1;
    } else {
      assert r == s;
    }
    assert multiset(r)[x] == 0;
    assert x !in multiset(r);
  }

  /** The messages the writer loop hands to the socket: those with a non-empty
      event name, in queue order. */
  function Deliverable(q: seq<Message>): (r: seq<Message>)
    ensures |r| <= |q|
    ensures forall m :: m in r <==> m in q && m.event != ""
  {
    if |q| == 0 then []
    else
      var rest := Deliverable(q[1..]);
      if q[0].event != "" then [q[0]] + rest else rest
  }

  /** Filtering a queue part by part filters the whole queue. */
  lemma {:induction false} DeliverableAppend(q1: seq<Message>, q2: seq<Message>)
    ensures Deliverable(q1 + q2) == Deliverable(q1) + Deliverable(q2)
  {
    if |q1| == 0 {
      assert q1 + q2 == q2;
    } else {
      assert (q1 + q2)[1..] == q1[1..] + q2;
      DeliverableAppend(q1[1..], q2);
    }
  }

  /** The writer loop's one step: the head is emitted when it names an event. */
  lemma DeliverableStep(q: seq<Message>)
    requires q != []
    ensures Deliverable(q) == (if q[0].event != "" then [q[0]] else []) + Deliverable(q[1..])
  {
  }

  lemma MessagesAssoc(a: seq<Message>, b: seq<Message>, c: seq<Message>)
    ensures (a + b) + c == a + (b + c)
  {
  }

  /** Typed lines that are keep-alives and reach no parser. */
  predicate IsIdle(command: string) {
    command == "IDLE" || "IDLE " <= command
  }

  /** `_py` or `_py <code>` in any letter case. */
  predicate IsPython(command: string) {
    var lower := Lower(command);
    lower == "_py" || "_py " <= lower
  }

  /** `QUIT` or `QUIT <anything>`, upper case only. */
  predicate IsQuit(command: string) {
    command == "QUIT" || "QUIT " <= command
  }

  /** Superusers and accounts at DEVELOPER level or above may open the console. */
  predicate MayDevelop(user: Option<Account>) {
    user.Some? && (user.value.isSuperuser || user.value.level >= DEVELOPER)
  }

  /** Where a typed line goes. */
  datatype Route =
    | Ignored        // an IDLE keep-alive
    | ToPriorityTop  // the top frame is a priority frame and parses it
    | PushPython     // a new Python console frame is pushed
    | Quit           // QUIT is consumed
    | ToTop          // the top (non-priority) frame parses it
    | ToPlayview     // no frames: the playview parses it
    | Dropped        // no frames and no playview

  /** The precedence chain of `handle_incoming_command`: IDLE, then a priority
      frame on top, then `_py` for developers, then QUIT, then the top frame, then
      the playview. */
  function Decide(command: string, stack: seq<Frame>, mayDevelop: bool, hasPlayview: bool): (r: Route)
    ensures IsIdle(command) <==> r == Ignored
    ensures r in {ToPriorityTop, ToTop} ==> |stack| > 0
    ensures r == ToPriorityTop <==> !IsIdle(command) && |stack| > 0 && stack[|stack| - 1].priority
    ensures r == PushPython ==> mayDevelop && IsPython(command)
    ensures r == Quit ==> IsQuit(command) && !(mayDevelop && IsPython(command))
    ensures r == ToPlayview ==> stack == [] && hasPlayview
    ensures r == Dropped ==> stack == [] && !hasPlayview
  {
    if IsIdle(command) then Ignored
    else if |stack| > 0 && stack[|stack| - 1].priority then ToPriorityTop
    else if mayDevelop && IsPython(command) then PushPython
    else if IsQuit(command) then Quit
    else if |stack| > 0 then ToTop
    else if hasPlayview then ToPlayview
    else Dropped
  }

  /** Only the top frame is consulted: two stacks with the same top route every
      line alike, whatever lies beneath, so a priority frame lower down is never
      given the line. */
  lemma OnlyTopMatters(command: string, s1: seq<Frame>, s2: seq<Frame>, mayDevelop: bool, hasPlayview: bool)
    requires |s1| > 0 && |s2| > 0 && s1[|s1| - 1] == s2[|s2| - 1]
    ensures Decide(command, s1, mayDevelop, hasPlayview) == Decide(command, s2, mayDevelop, hasPlayview)
  {
  }

  /** `QUIT` is case-sensitive: `quit` is handed to the top frame like any line. */
  lemma QuitIsCaseSensitive(stack: seq<Frame>, hasPlayview: bool)
    requires |stack| > 0 && !stack[|stack| - 1].priority
    ensures Decide("QUIT now", stack, false, hasPlayview) == Quit
    ensures Decide("quit", stack, false, hasPlayview) == ToTop
  {
    assert "quit"[0] != 'Q' && "quit"[0] != 'I';
    assert "QUIT now"[..5] == "QUIT ";
    assert "QUIT now"[0] != 'I';
  }

  /** `_py` is recognised in any letter case, but only for developers. */
  lemma PythonNeedsDeveloper(stack: seq<Frame>, hasPlayview: bool)
    requires |stack| > 0 && !stack[|stack| - 1].priority
    ensures Decide("_PY 1+1", stack, true, hasPlayview) == PushPython
    ensures Decide("_PY 1+1", stack, false, hasPlayview) == ToTop
  {
    assert Lower("_PY 1+1") == "_py 1+1";
    assert "_py " <= Lower("_PY 1+1");
    assert "_PY 1+1"[0] != 'I' && "_PY 1+1"[0] != 'Q';
  }

  class GameSession {
    const sid: string
    var parserStack: seq<Frame>
    var outgoing: seq<Message>
    var user: Option<Account>
    var playview: Option<string>
    /** What the writer loop has handed to the socket so far. */
    var delivered: seq<Message>

    /** A fresh connection: no frames, no account, no playview, nothing queued. */
    constructor (sid: string)
      ensures this.sid == sid
      ensures parserStack == [] && outgoing == [] && delivered == []
      ensures user == None && playview == None
    {
      this.sid := sid;
      parserStack := [];
      outgoing := [];
      user := None;
      playview := None;
      delivered := [];
    }

    /** `send_event`: one message appended to the back of the queue. */
    method SendEvent(event: string, data: Json)
      modifies this
      ensures outgoing == old(outgoing) + [Message(event, data)]
      ensures parserStack == old(parserStack) && user == old(user)
      ensures playview == old(playview) && delivered == old(delivered)
    {
      outgoing := outgoing + [Message(event, data)];
    }

    method SendText(text: string)
      modifies this
      ensures outgoing == old(outgoing) + Texts([text])
      ensures parserStack == old(parserStack) && user == old(user)
      ensures playview == old(playview) && delivered == old(delivered)
    {
      SendEvent("Text", TextPayload(text));
      assert Texts([text]) == [Message("Text", TextPayload(text))];
    }

    method SendGmcp(cmd: string, data: Json := JNull)
      modifies this
      ensures outgoing == old(outgoing) + [Message("GMCP", GmcpPayload(cmd, data))]
      ensures parserStack == old(parserStack) && user == old(user)
      ensures playview == old(playview) && delivered == old(delivered)
    {
      SendEvent("GMCP", GmcpPayload(cmd, data));
    }

    /** The writer loop, run until the queue is empty: every queued message leaves
        the queue, and those with an empty event name are skipped. */
    method Run()
      modifies this
      ensures outgoing == []
      ensures delivered == old(delivered) + Deliverable(old(outgoing))
      ensures parserStack == old(parserStack) && user == old(user) && playview == old(playview)
    {
      while outgoing != []
        invariant delivered + Deliverable(outgoing) == old(delivered) + Deliverable(old(outgoing))
        invariant parserStack == old(parserStack) && user == old(user) && playview == old(playview)
        decreases |outgoing|
      {
        var msg := outgoing[0];
        DeliverableStep(outgoing);
        ghost var rest := Deliverable(outgoing[1..]);
        outgoing := outgoing[1..];
        if msg.event != "" {
          MessagesAssoc(delivered, [msg], rest);
          delivered := delivered + [msg];
        }
      }
    }

    /** `add_parser`: the frame goes on top. Its `on_start` is run by the parser
        that owns it. */
    method AddParser(f: Frame)
      modifies this
      ensures parserStack == old(parserStack) + [f]
      ensures outgoing == old(outgoing) && user == old(user)
      ensures playview == old(playview) && delivered == old(delivered)
    {
      parserStack := parserStack + [f];
    }

    /** `handle_priority_command`: handles the line when the top frame has priority,
        when a developer types `_py` (one console frame is pushed) or on `QUIT`. */
    method HandlePriorityCommand(command: string) returns (handled: bool, r: Route)
      requires !IsIdle(command)
      modifies this
      ensures r == Decide(command, old(parserStack), MayDevelop(old(user)), old(playview).Some?)
      ensures handled <==> r in {ToPriorityTop, PushPython, Quit}
      ensures r == PushPython ==> (|parserStack| == |old(parserStack)| + 1
          && parserStack[..|old(parserStack)|] == old(parserStack)
          && fresh(parserStack[|old(parserStack)|])
          && parserStack[|old(parserStack)|].kind == PythonFrame
          && parserStack[|old(parserStack)|].priority
          && parserStack[|old(parserStack)|].session == this)
      ensures r != PushPython ==> parserStack == old(parserStack)
      ensures outgoing == old(outgoing) && user == old(user)
      ensures playview == old(playview) && delivered == old(delivered)
    {
      r := Decide(command, parserStack, MayDevelop(user), playview.Some?);
      if |parserStack| > 0 && parserStack[|parserStack| - 1].priority {
        handled := true;
        return;
      }
      if MayDevelop(user) && IsPython(command) {
        var console := new Frame(this, PythonFrame, true);
        AddParser(console);
        handled := true;
        return;
      }
      handled := IsQuit(command);
    }

    /** `handle_incoming_command`: routes one typed line along `Decide`; only a
        `_py` line changes the session (one console frame on top). */
    method HandleIncomingCommand(command: string) returns (r: Route)
      modifies this
      ensures r == Decide(command, old(parserStack), MayDevelop(old(user)), old(playview).Some?)
      ensures r == PushPython ==> (|parserStack| == |old(parserStack)| + 1
          && parserStack[..|old(parserStack)|] == old(parserStack)
          && fresh(parserStack[|old(parserStack)|])
          && parserStack[|old(parserStack)|].kind == PythonFrame
          && parserStack[|old(parserStack)|].priority
          && parserStack[|old(parserStack)|].session == this)
      ensures r != PushPython ==> parserStack == old(parserStack)
      ensures outgoing == old(outgoing) && user == old(user)
      ensures playview == old(playview) && delivered == old(delivered)
    {
      if IsIdle(command) {
        return Ignored;
      }
      var handled;
      handled, r := HandlePriorityCommand(command);
    }

    /** `login`: the session records the account and joins its session set. */
    method Login(u: Account)
      modifies this, u
      ensures user == Some(u) && u.sessions == old(u.sessions) + {this}
      ensures u.owned == old(u.owned)
      ensures parserStack == old(parserStack) && outgoing == old(outgoing)
      ensures playview == old(playview) && delivered == old(delivered)
    {
      user := Some(u);
      u.sessions := u.sessions + {this};
    }

    /** `logout`: the session leaves its account's session set and forgets it. The
        source fails unless a logged-in account lists the session. */
    method Logout()
      requires user.Some? && this in user.value.sessions
      modifies this, user.value
      ensures user == None
      ensures old(user.value).sessions == old(user.value.sessions) - {this}
      ensures old(user.value).owned == old(user.value.owned)
      ensures parserStack == old(parserStack) && outgoing == old(outgoing)
      ensures playview == old(playview) && delivered == old(delivered)
    {
      var u := user.value;
      u.sessions := u.sessions - {this};
      user := None;
    }
  }
}
