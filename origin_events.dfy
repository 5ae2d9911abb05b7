/** The server events of the document-backed server: `Command` routes a typed line
    to the session's parser, else to its playview, else answers that it cannot
    be handled; `GMCP` is accepted and ignored. `execute_event` picks the handler
    by event name. */
module OriginEvents {
  import opened Wrappers
  import opened JsonData
  import opened Text
  import opened Documents
  import opened GameSessions
  import opened OriginSessions

  /** Where a `Command` message went. */
  datatype Routed =
    | Idle                     // a keep-alive: nothing happens
    | ByParser(name: string)   // the registered parser named in the session's `parser` field
    | ByPlayview               // the session's playview
    | Oops(command: string)    // nobody: the session is told so
    | Raises                   // the message is not a mapping, or its `data` is not text

  /** `message.get("data", "")`, when it is a text. */
  function CommandText(message: Json): (r: Option<string>)
    ensures r.Some? <==> message.JObj? && Get(message.fields, "data", JStr("")).JStr?
    ensures message.JObj? && "data" !in message.fields ==> r == Some("")
  {
    if message.JObj? then
      var data := Get(message.fields, "data", JStr(""));
      if data.JStr? then Some(data.s) else None
    else None
  }

  /** The parser that owns the session: the stored name when it is a non-empty
      text naming a registered parser. */
  function ParserOf(parserField: Json, parsers: set<string>): (r: Option<string>)
    ensures r.Some? <==> parserField.JStr? && parserField.s != "" && parserField.s in parsers
    ensures r.Some? ==> r.value == parserField.s
  {
    if parserField.JStr? && parserField.s != "" && parserField.s in parsers then Some(parserField.s) else None
  }

  /** `Command`: the decision over the message, the stored parser name, the
      registered parser names and whether a playview is attached. */
  function Route(message: Json, parserField: Json, parsers: set<string>, hasPlayview: bool): (r: Routed)
    ensures r == Raises <==> CommandText(message).None?
    ensures r == Idle <==> CommandText(message).Some? && IsIdle(CommandText(message).value)
    ensures r.ByParser? <==> (CommandText(message).Some? && !IsIdle(CommandText(message).value)
                              && ParserOf(parserField, parsers).Some?)
    ensures r.ByParser? ==> Some(r.name) == ParserOf(parserField, parsers)
    ensures r == ByPlayview <==> (CommandText(message).Some? && !IsIdle(CommandText(message).value)
                                 && ParserOf(parserField, parsers).None? && hasPlayview)
    ensures r.Oops? <==> (CommandText(message).Some? && !IsIdle(CommandText(message).value)
                          && ParserOf(parserField, parsers).None? && !hasPlayview)
    ensures r.Oops? ==> r.command == CommandText(message).value
  {
    match CommandText(message)
    case None => Raises
    case Some(command) =>
      if IsIdle(command) then Idle
      else if ParserOf(parserField, parsers).Some? then ByParser(ParserOf(parserField, parsers).value)
      else if hasPlayview then ByPlayview
      else Oops(command)
  }

  /** A message with no `data` is the empty command, which no keep-alive test
      catches. */
  lemma MissingDataIsEmptyCommand(fields: map<string, Json>, parserField: Json, parsers: set<string>, hasPlayview: bool)
    requires "data" !in fields
    ensures Route(JObj(fields), parserField, parsers, hasPlayview)
      == if ParserOf(parserField, parsers).Some? then ByParser(parserField.s)
         else if hasPlayview then ByPlayview else Oops("")
  {
    assert !IsIdle("");
  }

  /** The text sent when nobody takes the command. */
  function OopsText(command: string): string {
    "Oops, cannot handle: " + command
  }

  /** `Command(session, message)`. The parser's and the playview's `parse` are
      not part of this model: the result names which of them receives the line. */
  method Command(session: Session, message: Json, parsers: set<string>) returns (r: Routed)
    modifies session
    ensures r == Route(message, FieldOf(session.store.docs, session.id, "parser", JNull), parsers,
                       Truthy(FieldOf(session.store.docs, session.id, "playview", JNull)))
    ensures r.Oops? ==> session.emitted == old(session.emitted) + Texts([OopsText(r.command)])
    ensures !r.Oops? ==> session.emitted == old(session.emitted)
    ensures session.started == old(session.started)
  {
    var command := CommandText(message);
    if command.None? {
      return Raises;
    }
    if IsIdle(command.value) {
      return Idle;
    }
    var parser := ParserOf(FieldOf(session.store.docs, session.id, "parser", JNull), parsers);
    if parser.Some? {
      return ByParser(parser.value);
    }
    if Truthy(FieldOf(session.store.docs, session.id, "playview", JNull)) {
      return ByPlayview;
    }
    session.SendText(OopsText(command.value));
    r := Oops(command.value);
  }

  /** The handlers the server registers under event names. */
  datatype EventHandler = CommandHandler | GmcpHandler

  /** `execute_event(event, message)`: the registered handler runs; an
      unregistered event and a GMCP event do nothing (None). */
  method ExecuteEvent(session: Session, event: string, message: Json,
                      handlers: map<string, EventHandler>, parsers: set<string>)
    returns (r: Option<Routed>)
    modifies session
    ensures r.Some? <==> event in handlers && handlers[event] == CommandHandler
    ensures r.None? ==> session.emitted == old(session.emitted)
    ensures r.Some? ==> r.value == Route(message, FieldOf(session.store.docs, session.id, "parser", JNull), parsers,
                                         Truthy(FieldOf(session.store.docs, session.id, "playview", JNull)))
    ensures session.started == old(session.started)
  {
    if event !in handlers {
      return None;
    }
    match handlers[event]
    case CommandHandler =>
      var routed := Command(session, message, parsers);
      r := Some(routed);
    case GmcpHandler =>
      r := None;
  }
}
