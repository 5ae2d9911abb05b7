/** The parsers of the document-backed server keep no state of their own: the
    session is passed to every call, and the parser that owns a session is the
    name stored in the session document's `parser` field. */
module OriginParser {
  import opened JsonData
  import opened Documents
  import opened OriginSessions

  /** `close(session, replaced)`: unless another parser is replacing this one,
      the session is left without a parser. */
  method Close(session: Session, replaced: bool := false)
    modifies session.store
    ensures replaced ==> session.store.docs == old(session.store.docs)
    ensures !replaced ==> session.store.docs == WithField(old(session.store.docs), session.id, "parser", JNull)
    ensures FieldOf(session.store.docs, session.id, "parser", JNull)
      == if replaced then old(FieldOf(session.store.docs, session.id, "parser", JNull)) else JNull
  {
    if !replaced {
      session.store.SetField(session.id, "parser", JNull);
    }
  }

  /** The default `parse` ignores the line. */
  method Parse(session: Session, text: string)
    ensures session.store.docs == old(session.store.docs) && session.emitted == old(session.emitted)
  {
  }

  /** The default `on_start` does nothing. */
  method OnStart(session: Session)
    ensures session.store.docs == old(session.store.docs) && session.emitted == old(session.emitted)
  {
  }
}
