/** The login screen of the document-backed server: the same five-state
    conversation as the other server, with accounts kept as documents, the
    session's parser and user kept as fields of the session document, and the
    first account promoted to developer level. */
module OriginLogin {
  import opened Wrappers
  import opened JsonData
  import opened Text
  import opened Documents
  import opened GameSessions
  import opened OriginSessions
  import opened OriginUsers
  import opened LoginMachine
  import OriginParser

  // ---------------------------------------------------------------------------
  // Promoting the first account

  /** The patch the first account receives as written: the keyword argument
      `data` becomes a field of the patch body, so the account gets a field named
      `data` holding `{"level": 5}`. */
  function FirstUserPatchAsWritten(docs: Docs, id: string): Docs {
    WithField(docs, id, "data", JObj(map["level" := JInt(DEVELOPER)]))
  }

  /** As written, the patch leaves the account's own `level` as it was: a freshly
      created account still has none. */
  lemma AsWrittenLeavesLevelUnset(docs: Docs, id: string, username: string, hash: string)
    ensures FieldOf(FirstUserPatchAsWritten(docs, id), id, "level", JNull) == FieldOf(docs, id, "level", JNull)
    ensures FieldOf(FirstUserPatchAsWritten(docs[id := UserRecord(username, hash, None)], id), id, "level", JNull) == JNull
  {
    WithFieldReads(docs, id, "data", JObj(map["level" := JInt(DEVELOPER)]), id, "level", JNull);
    var created := docs[id := UserRecord(username, hash, None)];
    WithFieldReads(created, id, "data", JObj(map["level" := JInt(DEVELOPER)]), id, "level", JNull);
    RecordHoldsNoPlaintext(username, hash, None);
  }

  /** The patch as intended: the account's `level` becomes developer level. */
  function FirstUserPatch(docs: Docs, id: string): Docs {
    WithField(docs, id, "level", JInt(DEVELOPER))
  }

  /** The intended patch gives the first account developer level and keeps its
      name and every other document. */
  lemma FirstUserIsDeveloper(docs: Docs, id: string, id2: string, name: string)
    ensures FieldOf(FirstUserPatch(docs, id), id, "level", JNull) == JInt(DEVELOPER)
    ensures (id2 != id || name != "level") ==> FieldOf(FirstUserPatch(docs, id), id2, name, JNull) == FieldOf(docs, id2, name, JNull)
  {
    WithFieldReads(docs, id, "level", JInt(DEVELOPER), id2, name, JNull);
  }

  /** The database after a login: the session loses its parser, then records the
      account. */
  function LoginDocs(docs: Docs, sid: string, uid: string): Docs {
    WithField(WithField(docs, sid, "parser", JNull), sid, "user", JStr(uid))
  }

  lemma LoginDocsReads(docs: Docs, sid: string, uid: string, id: string, name: string)
    ensures FieldOf(LoginDocs(docs, sid, uid), sid, "user", JNull) == JStr(uid)
    ensures FieldOf(LoginDocs(docs, sid, uid), sid, "parser", JNull) == JNull
    ensures (id != sid || (name != "user" && name != "parser")) ==> FieldOf(LoginDocs(docs, sid, uid), id, name, JNull) == FieldOf(docs, id, name, JNull)
    ensures LoginDocs(docs, sid, uid).Keys == docs.Keys + {sid}
  {
    var closed := WithField(docs, sid, "parser", JNull);
    WithFieldReads(closed, sid, "user", JStr(uid), sid, "parser", JNull);
    WithFieldReads(closed, sid, "user", JStr(uid), id, name, JNull);
    WithFieldReads(docs, sid, "parser", JNull, id, name, JNull);
  }

  /** A write to a document outside the account list, or to a field other than the
      name, keeps the account registry. */
  lemma RegistryKeeps(docs: Docs, order: seq<string>, id: string, name: string, value: Json)
    requires Registry(docs, order) && (id !in order || name != "username")
    ensures Registry(WithField(docs, id, name, value), order)
  {
    var after := WithField(docs, id, name, value);
    forall k | 0 <= k < |order|
      ensures StoredName(after, order[k]) == StoredName(docs, order[k])
    {
      WithFieldReads(docs, id, name, value, order[k], "username", JNull);
    }
  }

  // ---------------------------------------------------------------------------
  // The screen

  class LoginParser {
    const session: Session
    const users: UserManager
    var state: Option<LoginStatus>
    var username: Option<string>
    var password: Option<string>
    /** The account's document id. */
    var user: Option<string>

    function Snapshot(): Machine
      reads this
    {
      Machine(state, username, password)
    }

    /** Accounts and sessions live in one database, the conversation is well
        formed and the held account agrees with the state. */
    predicate Valid()
      reads this, users
    {
      users.store == session.store && WellFormed(Snapshot()) && UserAgrees()
    }

    /** An account is held while its password is asked for, and none while a new
        one is set up. */
    predicate UserAgrees()
      reads this
    {
      (state == Some(WelcomePassword) ==> user.Some?)
      && (state == Some(UsernameConfirm) || state == Some(NewPassword) || state == Some(PasswordConfirm) ==> user.None?)
    }

    /** Whether `text` is the held account's password. */
    function Verified(text: string): bool
      reads this, users, users.store
    {
      user.Some? && Authenticate(users.store.docs, user.value, text, users.verify) == Some(true)
    }

    /** How `create_user` would go, the account count read before it: created as
        the first account exactly when there were none, or refused with the
        error's text. Only the confirmation state asks, and there a name and a
        password are held. */
    function CreationFor(serverId: string): Creation
      reads this, users, users.store
    {
      if username.None? || password.None? then Refused("")
      else
        CreationOf(CreateOutcome(users.store.docs, users.order, users.hash, username.value, password.value, None, serverId),
                   |users.order| == 0)
    }

    /** What the account store answers to `text` in the current state: the lookup
        of the trimmed name, the password check, or the creation; the answers
        the state does not ask for are left at a fixed value. */
    function AnswersFor(text: string, serverId: string): Answers
      reads this, users, users.store
    {
      match state
      case Some(Username) => Answers(FindUser(users.store.docs, users.order, Strip(text)).Some?, false, Refused(""))
      case Some(WelcomePassword) => Answers(false, Verified(text), Refused(""))
      case Some(PasswordConfirm) => Answers(false, false, CreationFor(serverId))
      case _ => Answers(false, false, Refused(""))
    }

    constructor (session: Session, users: UserManager)
      requires users.store == session.store
      ensures this.session == session && this.users == users
      ensures Valid() && Snapshot() == Cleared && user == None
    {
      this.session := session;
      this.users := users;
      state := Some(Username);
      username := None;
      password := None;
      user := None;
    }

    /** `on_start`: the welcome screen, then the first prompt. */
    method OnStart()
      modifies session
      ensures session.emitted == old(session.emitted) + Texts([WELCOME] + Prompt(state, username))
      ensures session.started == old(session.started)
    {
      session.SendText(WELCOME);
      Render();
      TextsAppend(old(session.emitted), [WELCOME], Prompt(state, username));
    }

    /** `render`: the prompt of the current state. */
    method Render()
      modifies session
      ensures session.emitted == old(session.emitted) + Texts(Prompt(state, username))
      ensures session.started == old(session.started)
    {
      var prompt := Prompt(state, username);
      if prompt != [] {
        session.SendText(prompt[0]);
      }
    }

    /** `clear`. */
    method Clear()
      modifies this
      ensures Snapshot() == Cleared && user == None
    {
      state := Some(Username);
      username := None;
      password := None;
      user := None;
    }

    /** A refused account: the error is told and the conversation starts over. */
    method Refuse(error: string)
      modifies this, session
      ensures Snapshot() == Cleared && user == None
      ensures session.emitted == old(session.emitted) + Texts([error])
      ensures session.started == old(session.started)
    {
      session.SendText(error);
      Clear();
    }

    /** `login`: the screen closes, the session leaves it, and the session logs
        the account in, which starts the main menu. The base class's `close`
        never calls `on_close`; the screen's state is set to None here as the
        screen's own `on_close` would, so that the conversation ends as in the
        stack engine. */
    method Login()
      requires user.Some?
      modifies this, session, session.store
      ensures state == None && username == old(username) && password == old(password) && user == old(user)
      ensures session.store.docs == LoginDocs(old(session.store.docs), session.id, user.value)
      ensures session.started == old(session.started) + ["main_menu"] && session.emitted == old(session.emitted)
    {
      state := None;
      OriginParser.Close(session);
      session.Login(user.value);
    }

    /** `handle_username`. */
    method HandleUsername(text: string)
      requires state == Some(Username)
      modifies this
      ensures Snapshot() == OnUsername(old(Snapshot()), text, FindUser(users.store.docs, users.order, Strip(text)).Some?)
      ensures user == if Strip(text) == [] then old(user) else FindUser(users.store.docs, users.order, Strip(text))
      ensures UserAgrees()
    {
      var name := Strip(text);
      if name == [] {
        return;
      }
      username := Some(name);
      user := FindUser(users.store.docs, users.order, name);
      if user.Some? {
        state := Some(WelcomePassword);
      } else {
        state := Some(UsernameConfirm);
      }
    }

    /** `handle_username_confirm`. */
    method HandleUsernameConfirm(text: string)
      requires state == Some(UsernameConfirm)
      modifies this
      ensures Snapshot() == OnConfirm(old(Snapshot()), text)
      ensures old(UserAgrees()) ==> UserAgrees()
    {
      var answer := Lower(Strip(text));
      if answer == "yes" {
        state := Some(NewPassword);
      } else if answer == "no" {
        Clear();
      }
    }

    /** `handle_new_password`. */
    method HandleNewPassword(text: string)
      requires state == Some(NewPassword)
      modifies this, session
      ensures Snapshot() == OnNewPassword(old(Snapshot()), text) && user == old(user)
      ensures session.emitted == old(session.emitted) + Texts(NewPasswordTexts(text))
      ensures session.started == old(session.started)
      ensures old(UserAgrees()) ==> UserAgrees()
    {
      if Strip(text) != text {
        session.SendText(NO_OUTER_SPACE);
        return;
      }
      password := Some(text);
      state := Some(PasswordConfirm);
    }

    /** `handle_welcome_password`: a verified password logs in. */
    method HandleWelcomePassword(text: string)
      requires state == Some(WelcomePassword) && user.Some?
      modifies this, session, session.store
      ensures Snapshot() == OnWelcomePassword(old(Snapshot()), text, old(Verified(text))) && user == old(user)
      ensures session.emitted == old(session.emitted) + Texts(WelcomeTexts(text, old(Verified(text))))
      ensures state.None? ==> session.store.docs == LoginDocs(old(session.store.docs), session.id, user.value)
      ensures state.None? ==> session.started == old(session.started) + ["main_menu"]
      ensures state.Some? ==> session.store.docs == old(session.store.docs) && session.started == old(session.started)
    {
      ghost var verified := Verified(text);
      if Strip(text) != text {
        session.SendText(NO_OUTER_SPACE);
        assert WelcomeTexts(text, verified) == [NO_OUTER_SPACE];
        return;
      }
      var ok := Authenticate(users.store.docs, user.value, text, users.verify) == Some(true);
      assert ok == verified;
      if ok {
        Login();
        assert WelcomeTexts(text, verified) == [];
      } else {
        session.SendText(INVALID_CREDENTIALS);
        assert WelcomeTexts(text, verified) == [INVALID_CREDENTIALS];
      }
    }

    /** The first account is made a developer and told so. */
    method Promote(id: string, first: bool)
      modifies session, session.store
      ensures session.store.docs == if first then FirstUserPatch(old(session.store.docs), id) else old(session.store.docs)
      ensures session.emitted == old(session.emitted) + Texts(if first then [FIRST_USER] else [])
      ensures session.started == old(session.started)
    {
      if first {
        session.store.SetField(id, "level", JInt(DEVELOPER));
        session.SendText(FIRST_USER);
      } else {
        assert session.emitted == old(session.emitted) + Texts([]);
      }
    }

    /** The rest of a successful `create_user`: promote the first account, then
        log the new account in. */
    method Admit(id: string, first: bool, ghost docs0: Docs, ghost order0: seq<string>, ghost name: string, ghost hashed: string)
      requires first == (|order0| == 0) && FindUser(docs0, order0, name).None?
      requires session.store.docs == docs0[id := UserRecord(name, hashed, None)]
      modifies this, session, session.store
      ensures session.store.docs == LoginDocs(AccountDocs(docs0, id, name, hashed, first), session.id, id)
      ensures FindUser(session.store.docs, order0 + [id], name) == Some(id)
      ensures FieldOf(session.store.docs, session.id, "user", JNull) == JStr(id)
      ensures FieldOf(session.store.docs, session.id, "parser", JNull) == JNull
      ensures session.emitted == old(session.emitted) + Texts(if first then [FIRST_USER] else [])
      ensures state == None && user == Some(id) && username == old(username) && password == old(password)
      ensures session.started == old(session.started) + ["main_menu"]
    {
      Promote(id, first);
      user := Some(id);
      Login();
      ConfirmedAccountIsFound(docs0, order0, session.id, id, name, hashed, session.store.docs);
    }

    /** `create_user`: count the accounts, create this one, promote it when it is
        the first, and log it in; an error is shown and the screen starts over. */
    method CreateUser(serverId: string) returns (created: Option<string>)
      requires users.store == session.store && username.Some? && password.Some?
      modifies this, session, session.store, users
      ensures session.emitted == old(session.emitted) + Texts(CreationTexts(old(CreationFor(serverId))))
      ensures old(CreationFor(serverId)).Created? <==> created.Some?
      ensures created.Some? ==> (
        created.value !in old(session.store.docs)
        && users.order == old(users.order) + [created.value]
        && session.store.docs == LoginDocs(
             AccountDocs(old(session.store.docs), created.value, old(username).value,
                         users.hash(old(password).value).value, old(|users.order|) == 0),
             session.id, created.value)
        && state == None && username == old(username) && password == old(password) && user == created
        && FindUser(session.store.docs, users.order, old(username).value) == Some(created.value)
        && FieldOf(session.store.docs, session.id, "user", JNull) == JStr(created.value)
        && FieldOf(session.store.docs, session.id, "parser", JNull) == JNull
        && session.started == old(session.started) + ["main_menu"])
      ensures created.None? ==> (
        Snapshot() == Cleared && user == None
        && session.store.docs == old(session.store.docs) && users.order == old(users.order)
        && session.started == old(session.started))
    {
      ghost var m0 := Snapshot();
      ghost var creation := CreationFor(serverId);
      ghost var docs0 := session.store.docs;
      ghost var order0 := users.order;
      var first := |users.order| == 0;
      var outcome := users.CreateUser(username.value, password.value, None, serverId);
      assert creation == CreationOf(outcome, first);
      if outcome.Failure? {
        Refuse(outcome.error);
        assert session.store.docs == docs0 && users.order == order0;
        return None;
      }
      Admit(outcome.value, first, docs0, order0, m0.username.value, users.hash(m0.password.value).value);
      assert Snapshot() == m0.(state := None);
      created := Some(outcome.value);
    }

    /** The confirmation differs from the new password: it is asked for again. */
    method AskAgain()
      modifies this, session
      ensures Snapshot() == old(Snapshot()).(password := None, state := Some(NewPassword))
      ensures session.emitted == old(session.emitted) + Texts([MISMATCH])
      ensures session.started == old(session.started)
      ensures user == old(user)
    {
      session.SendText(MISMATCH);
      password := None;
      state := Some(NewPassword);
    }

    /** `handle_password_confirm`. */
    method HandlePasswordConfirm(text: string, serverId: string)
      requires users.store == session.store && state == Some(PasswordConfirm)
      requires username.Some? && password.Some? && user.None?
      modifies this, session, session.store, users
      ensures Snapshot() == OnPasswordConfirm(old(Snapshot()), text, old(CreationFor(serverId)))
      ensures session.emitted == old(session.emitted) + Texts(ConfirmTexts(old(Snapshot()), text, old(CreationFor(serverId))))
      ensures state.None? <==> (!HasOuterSpace(text) && old(password) == Some(text) && old(CreationFor(serverId)).Created?)
      ensures state.None? ==> (
        user.Some? && user.value !in old(session.store.docs) && users.order == old(users.order) + [user.value]
        && FindUser(session.store.docs, users.order, old(username).value) == Some(user.value)
        && FieldOf(session.store.docs, session.id, "user", JNull) == JStr(user.value)
        && FieldOf(session.store.docs, session.id, "parser", JNull) == JNull
        && session.started == old(session.started) + ["main_menu"])
      ensures state.Some? ==> (
        session.store.docs == old(session.store.docs) && users.order == old(users.order)
        && session.started == old(session.started) && UserAgrees())
    {
      ghost var m0 := Snapshot();
      if Strip(text) != text {
        session.SendText(NO_OUTER_SPACE);
        return;
      }
      if password != Some(text) {
        AskAgain();
        assert OnPasswordConfirm(m0, text, old(CreationFor(serverId))) == Snapshot();
        return;
      }
      ghost var creation := CreationFor(serverId);
      var created := CreateUser(serverId);
      if created.Some? {
        assert Snapshot() == m0.(state := None) == OnPasswordConfirm(m0, text, creation);
      } else {
        assert Snapshot() == Cleared == OnPasswordConfirm(m0, text, creation);
      }
    }

    /** The handlers of the states that only ask for the next line: the name,
        its confirmation and a new password. */
    method Ask(text: string, serverId: string)
      requires Valid() && !IsReturn(text)
      requires state == Some(Username) || state == Some(UsernameConfirm) || state == Some(NewPassword)
      modifies this, session
      ensures Snapshot() == Next(old(Snapshot()), text, old(AnswersFor(text, serverId)))
      ensures session.emitted == old(session.emitted) + Texts(HandlerTexts(old(Snapshot()), text, old(AnswersFor(text, serverId))))
      ensures state.Some? && session.started == old(session.started) && UserAgrees()
    {
      ghost var m0 := Snapshot();
      ghost var a := AnswersFor(text, serverId);
      StepByState(m0, text, a);
      match state.value
      case Username =>
        HandleUsername(text);
        assert HandlerTexts(m0, text, a) == [];
      case UsernameConfirm =>
        HandleUsernameConfirm(text);
        assert HandlerTexts(m0, text, a) == [];
      case NewPassword =>
        HandleNewPassword(text);
        assert HandlerTexts(m0, text, a) == NewPasswordTexts(text);
    }

    /** The handlers of the states that consult the accounts: the password of an
        existing account and the confirmation of a new one. Either may log in. */
    method Answer(text: string, serverId: string)
      requires Valid() && !IsReturn(text)
      requires state == Some(WelcomePassword) || state == Some(PasswordConfirm)
      modifies this, session, session.store, users
      ensures Snapshot() == Next(old(Snapshot()), text, old(AnswersFor(text, serverId)))
      ensures session.emitted == old(session.emitted) + Texts(HandlerTexts(old(Snapshot()), text, old(AnswersFor(text, serverId))))
      ensures state.Some? ==> (
        session.store.docs == old(session.store.docs) && users.order == old(users.order)
        && session.started == old(session.started) && UserAgrees())
      ensures state.None? ==> (
        user.Some?
        && FieldOf(session.store.docs, session.id, "user", JNull) == JStr(user.value)
        && FieldOf(session.store.docs, session.id, "parser", JNull) == JNull
        && session.started == old(session.started) + ["main_menu"])
      ensures state.None? && old(state) == Some(PasswordConfirm) ==> (
        users.order == old(users.order) + [user.value]
        && FindUser(session.store.docs, users.order, old(username).value) == Some(user.value))
    {
      ghost var m0 := Snapshot();
      ghost var a := AnswersFor(text, serverId);
      StepByState(m0, text, a);
      if state == Some(WelcomePassword) {
        HandleWelcomePassword(text);
        assert HandlerTexts(m0, text, a) == WelcomeTexts(text, a.verified);
        if state.None? {
          LoginDocsReads(old(session.store.docs), session.id, user.value, session.id, "user");
        }
      } else {
        assert username.Some? && password.Some? && user.None?;
        HandlePasswordConfirm(text, serverId);
        assert HandlerTexts(m0, text, a) == ConfirmTexts(m0, text, a.creation);
      }
    }

    /** `handle_*` for the current state. */
    method Dispatch(text: string, serverId: string)
      requires Valid() && state.Some? && !IsReturn(text)
      modifies this, session, session.store, users
      ensures Snapshot() == Next(old(Snapshot()), text, old(AnswersFor(text, serverId)))
      ensures session.emitted == old(session.emitted) + Texts(HandlerTexts(old(Snapshot()), text, old(AnswersFor(text, serverId))))
      ensures state.Some? ==> (
        session.store.docs == old(session.store.docs) && users.order == old(users.order)
        && session.started == old(session.started) && UserAgrees())
      ensures state.None? ==> (
        user.Some?
        && FieldOf(session.store.docs, session.id, "user", JNull) == JStr(user.value)
        && FieldOf(session.store.docs, session.id, "parser", JNull) == JNull
        && session.started == old(session.started) + ["main_menu"])
      ensures state.None? && old(state) == Some(PasswordConfirm) ==> (
        users.order == old(users.order) + [user.value]
        && FindUser(session.store.docs, users.order, old(username).value) == Some(user.value))
    {
      match state.value
      case Username => Ask(text, serverId);
      case UsernameConfirm => Ask(text, serverId);
      case NewPassword => Ask(text, serverId);
      case WelcomePassword => Answer(text, serverId);
      case PasswordConfirm => Answer(text, serverId);
    }

    /** `parse`: "return" in any case starts over; any other line goes to the
        handler of the current state; then the prompt of the new state is sent
        (a screen that logged in is closed and prompts nothing). */
    method Parse(text: string, serverId: string)
      requires Valid() && Accepts(Snapshot(), text)
      modifies this, session, session.store, users
      ensures Valid()
      ensures Snapshot() == Next(old(Snapshot()), text, old(AnswersFor(text, serverId)))
      ensures session.emitted == old(session.emitted)
        + Texts(HandlerTexts(old(Snapshot()), text, old(AnswersFor(text, serverId))) + Prompt(state, username))
      ensures !LogsIn(old(Snapshot()), text, old(AnswersFor(text, serverId))) ==> (
        session.store.docs == old(session.store.docs) && users.order == old(users.order)
        && session.started == old(session.started))
      ensures LogsIn(old(Snapshot()), text, old(AnswersFor(text, serverId))) ==> (
        user.Some?
        && FieldOf(session.store.docs, session.id, "user", JNull) == JStr(user.value)
        && FieldOf(session.store.docs, session.id, "parser", JNull) == JNull
        && session.started == old(session.started) + ["main_menu"])
    {
      ghost var m0 := Snapshot();
      ghost var a := AnswersFor(text, serverId);
      NextKeepsWellFormed(m0, text, a);
      if IsReturn(text) {
        Clear();
      } else {
        Dispatch(text, serverId);
      }
      ghost var sent := session.emitted;
      ghost var handled := HandlerTexts(m0, text, a);
      Render();
      TextsAppend(old(session.emitted), handled, Prompt(state, username));
    }
  }

  /** A creation as the screen sees it: created, as the first account or not, or
      refused with the error's text. */
  function CreationOf(outcome: Result<string, string>, first: bool): (r: Creation)
    ensures r.Created? <==> outcome.Success?
    ensures r.Created? ==> r.first == first
    ensures r.Refused? ==> r.error == outcome.error
  {
    match outcome
    case Success(_) => Created(first)
    case Failure(e) => Refused(e)
  }

  /** The database after `create_user` wrote account `id`, promoted when it is the
      first. */
  function AccountDocs(docs: Docs, id: string, username: string, hash: string, first: bool): Docs {
    var created := docs[id := UserRecord(username, hash, None)];
    if first then FirstUserPatch(created, id) else created
  }

  /** A database in which the session document stays outside the account list
      keeps its registry through a login. */
  lemma LoginDocsKeepsRegistry(docs: Docs, order: seq<string>, sid: string, uid: string)
    requires Registry(docs, order) && sid !in order
    ensures Registry(LoginDocs(docs, sid, uid), order)
  {
    RegistryKeeps(docs, order, sid, "parser", JNull);
    RegistryKeeps(WithField(docs, sid, "parser", JNull), order, sid, "user", JStr(uid));
  }

  /** After a confirmation every account keeps its stored name, and the new one
      holds the name typed. */
  lemma ConfirmedNames(docs0: Docs, sid: string, id: string, name: string, hash: string, first: bool, k: string)
    ensures StoredName(LoginDocs(AccountDocs(docs0, id, name, hash, first), sid, id), k)
      == (if k == id then Some(name) else StoredName(docs0, k))
  {
    var created := docs0[id := UserRecord(name, hash, None)];
    var promoted := AccountDocs(docs0, id, name, hash, first);
    InsertedNames(docs0, id, name, hash, None, k);
    FirstUserIsDeveloper(created, id, k, "username");
    assert StoredName(promoted, k) == StoredName(created, k);
    LoginDocsReads(promoted, sid, id, k, "username");
  }

  /** The account a confirmation creates is the one `find_user` then finds, and
      the session records it. */
  lemma ConfirmedAccountIsFound(docs0: Docs, order0: seq<string>, sid: string, id: string, name: string, hash: string, docs: Docs)
    requires FindUser(docs0, order0, name).None?
    requires docs == LoginDocs(AccountDocs(docs0, id, name, hash, |order0| == 0), sid, id)
    ensures FindUser(docs, order0 + [id], name) == Some(id)
    ensures FieldOf(docs, sid, "user", JNull) == JStr(id) && FieldOf(docs, sid, "parser", JNull) == JNull
  {
    ConfirmedNames(docs0, sid, id, name, hash, |order0| == 0, id);
    forall j | 0 <= j < |order0| && order0[j] != id
      ensures !NameMatches(docs, order0[j], name)
    {
      ConfirmedNames(docs0, sid, id, name, hash, |order0| == 0, order0[j]);
      assert !NameMatches(docs0, order0[j], name);
    }
    FindUserAppend(docs, order0, name, id);
    LoginDocsReads(AccountDocs(docs0, id, name, hash, |order0| == 0), sid, id, sid, "user");
  }
}
