/** The two screens a connection of the stack-of-parsers server passes through:
    the login conversation and, once logged in, the main menu. Each screen owns one
    frame on the session's parser stack; logging in replaces the login frame by a
    menu frame and logging out replaces the menu frame by a fresh login frame. */
module Screens {
  import opened Wrappers
  import opened JsonData
  import opened Text
  import opened GameSessions
  import opened LoginMachine

  /** The index of the first account whose name equals `name` ignoring case. */
  function FindAccountIndex(accounts: seq<Account>, name: string): (r: Option<nat>)
    ensures r.None? <==> forall i :: 0 <= i < |accounts| ==> Lower(accounts[i].username) != Lower(name)
    ensures r.Some? ==> r.value < |accounts| && Lower(accounts[r.value].username) == Lower(name)
    ensures r.Some? ==> forall j :: 0 <= j < r.value ==> Lower(accounts[j].username) != Lower(name)
  {
    if |accounts| == 0 then None
    else if Lower(accounts[0].username) == Lower(name) then Some(0)
    else
      match FindAccountIndex(accounts[1..], name)
      case None => None
      case Some(i) => Some(i + 1)
  }

  /** `filter_family(username__iexact=name).first()`. */
  function FindAccount(accounts: seq<Account>, name: string): (r: Option<Account>)
    ensures r.Some? ==> r.value in accounts && Lower(r.value.username) == Lower(name)
    ensures r.None? ==> forall a :: a in accounts ==> Lower(a.username) != Lower(name)
  {
    match FindAccountIndex(accounts, name)
    case None => None
    case Some(i) => Some(accounts[i])
  }

  /** The account table with its password hasher and checker. */
  class AccountDirectory {
    const hash: string -> string
    const verify: (string, string) -> bool
    var accounts: seq<Account>

    constructor (hash: string -> string, verify: (string, string) -> bool)
      ensures this.hash == hash && this.verify == verify && accounts == []
    {
      this.hash := hash;
      this.verify := verify;
      accounts := [];
    }

    /** `create_user` / `create_superuser`: a new account at the default level 0
        holding the hash of the password, unless the database refuses the row
        (`refusal` is the error text it raises). */
    method Create(username: string, password: string, superuser: bool, refusal: Option<string>)
      returns (r: Result<Account, string>)
      modifies this
      ensures refusal.Some? ==> r == Failure(refusal.value) && accounts == old(accounts)
      ensures refusal.None? ==> r.Success? && fresh(r.value) && accounts == old(accounts) + [r.value]
      ensures refusal.None? ==> r.value.username == username && r.value.isSuperuser == superuser
      ensures refusal.None? ==> r.value.level == 0 && r.value.passwordHash == hash(password)
      ensures refusal.None? ==> r.value.sessions == {} && r.value.owned == []
    {
      if refusal.Some? {
        return Failure(refusal.value);
      }
      var a := new Account(username, superuser, 0, hash(password));
      accounts := accounts + [a];
      r := Success(a);
    }
  }

  /** The names of every player character, whoever owns it. */
  class CharacterRoster {
    var names: seq<string>

    constructor (names: seq<string>)
      ensures this.names == names
    {
      this.names := names;
    }
  }

  /** A name already taken, compared ignoring case. */
  predicate NameTaken(names: seq<string>, name: string) {
    exists i :: 0 <= i < |names| && Lower(names[i]) == Lower(name)
  }

  const SESSION_ROW: seq<string> := ["Unknwon", "Unknown", "Unknown"]

  function Table(title: string, columns: seq<string>, rows: seq<Json>): Json {
    JObj(map["title" := JStr(title), "columns" := StrArr(columns), "rows" := JArr(rows)])
  }

  function SessionsTable(count: nat): Json {
    Table("Sessions", ["ID", "IP", "Client"], seq(count, _ => StrArr(SESSION_ROW)))
  }

  function CharactersTable(owned: seq<string>): Json {
    Table("Characters", ["Name"], seq(|owned|, i requires 0 <= i < |owned| => StrArr([owned[i]])))
  }

  const COMMAND_ROWS: seq<seq<string>> := [
    ["play", "play <name>", "Play a character."],
    ["create", "create <name>", "Create new character."],
    ["logout", "logout", "Logout and return to login screen."],
    ["QUIT", "QUIT", "Quit the game."]
  ]

  function CommandsTable(): Json {
    Table("Commands", ["Command", "Syntax", "Help"],
          [StrArr(COMMAND_ROWS[0]), StrArr(COMMAND_ROWS[1]), StrArr(COMMAND_ROWS[2]), StrArr(COMMAND_ROWS[3])])
  }

  /** The menu's `render`: a sessions table with one row per logged-in session, a
      characters table only when the account owns characters, and the commands
      table, all as `Table` events. */
  function MenuMessages(sessionCount: nat, owned: seq<string>): (r: seq<Message>)
    ensures |r| == if owned == [] then 2 else 3
    ensures forall i :: 0 <= i < |r| ==> r[i].event == "Table"
    ensures r[0].data == SessionsTable(sessionCount)
    ensures |SessionsTable(sessionCount).fields["rows"].items| == sessionCount
    ensures owned != [] ==> r[1].data == CharactersTable(owned)
    ensures r[|r| - 1].data == CommandsTable() && |CommandsTable().fields["rows"].items| == 4
  {
    [Message("Table", SessionsTable(sessionCount))]
    + (if owned == [] then [] else [Message("Table", CharactersTable(owned))])
    + [Message("Table", CommandsTable())]
  }

  /** What the menu does with one line. */
  datatype MenuAction = Redraw | Play(args: string) | Create(args: string) | Logout | NoAction

  /** The first word of the trimmed line and the rest after the first space. */
  function Words(text: string): (string, string) {
    SplitFirst(Strip(text), ' ')
  }

  /** The menu's `parse` decision: a blank line redraws, otherwise the first word,
      in any case, picks the command and the rest of the line is its argument. */
  function MenuCommand(text: string): (r: MenuAction)
    ensures r == Redraw <==> Strip(text) == []
    ensures r.Play? || r.Create? ==> ' ' !in Words(text).0 && r.args == Words(text).1
    ensures r.Play? ==> Lower(Words(text).0) == "play"
    ensures r.Create? ==> Lower(Words(text).0) == "create"
    ensures r == Logout ==> Lower(Words(text).0) == "logout"
    ensures r == NoAction ==> Strip(text) != [] && Lower(Words(text).0) !in {"play", "create", "logout"}
  {
    var t := Strip(text);
    if t == [] then Redraw
    else
      var (word, args) := SplitFirst(t, ' ');
      var lower := Lower(word);
      if lower == "play" then Play(args)
      else if lower == "create" then Create(args)
      else if lower == "logout" then Logout
      else NoAction
  }

  /** The trimmed line is the command word, then (when there is a space) one
      space and the argument. */
  lemma WordsRebuildLine(text: string)
    ensures ' ' in Strip(text) ==> Words(text).0 + " " + Words(text).1 == Strip(text)
    ensures ' ' !in Strip(text) ==> Words(text) == (Strip(text), [])
  {
  }

  /** How `play` ended. */
  datatype PlayOutcome = NoCharacters | NoArgs | NoMatch | CannotPlay(name: string) | Joined(name: string)

  /** The checks of `handle_play`, in order: owned characters, an argument, a
      match, then whether the match may be played. */
  function PlayDecision(owned: seq<string>, args: string,
                        partialMatch: (string, seq<string>) -> Option<string>,
                        canPlay: string -> bool): (r: PlayOutcome)
    ensures owned == [] <==> r == NoCharacters
    ensures r == NoArgs <==> owned != [] && args == []
    ensures r == NoMatch <==> owned != [] && args != [] && partialMatch(args, owned).None?
    ensures r.Joined? || r.CannotPlay? ==> owned != [] && args != [] && partialMatch(args, owned) == Some(r.name)
    ensures r.Joined? ==> canPlay(r.name)
    ensures r.CannotPlay? ==> !canPlay(r.name)
  {
    if owned == [] then NoCharacters
    else if args == [] then NoArgs
    else match partialMatch(args, owned)
      case None => NoMatch
      case Some(found) => if canPlay(found) then Joined(found) else CannotPlay(found)
  }

  /** The message each failed check of `handle_play` sends. */
  function PlayTexts(outcome: PlayOutcome): seq<string> {
    match outcome
    case NoCharacters => ["You have no characters!"]
    case NoArgs => ["Play which character?"]
    case NoMatch => ["That didn't match any of your available characters."]
    case _ => []
  }

  /** The login screen. */
  class LoginParser {
    const session: GameSession
    const frame: Frame
    const directory: AccountDirectory
    const roster: CharacterRoster
    var state: Option<LoginStatus>
    var username: Option<string>
    var password: Option<string>
    var user: Option<Account>

    function Snapshot(): Machine
      reads this
    {
      Machine(state, username, password)
    }

    predicate Valid()
      reads this
    {
      frame.session == session && frame.kind == LoginFrame && !frame.priority
      && WellFormed(Snapshot())
      && UserAgrees()
    }

    /** An account is held exactly while its password is asked for; while a new
        account is being set up none is. */
    predicate UserAgrees()
      reads this
    {
      (state == Some(WelcomePassword) ==> user.Some?)
      && (state == Some(UsernameConfirm) || state == Some(NewPassword) || state == Some(PasswordConfirm) ==> user.None?)
    }

    /** What the account store answers to `text` in the current state. */
    function AnswersFor(text: string, refusal: Option<string>): Answers
      reads this, directory
    {
      Answers(FindAccount(directory.accounts, Strip(text)).Some?,
              user.Some? && directory.verify(user.value.passwordHash, text),
              CreationFor(refusal))
    }

    /** How creating the account would go: refused with the store's error, or
        created, as the first account exactly when none exist yet. */
    function CreationFor(refusal: Option<string>): Creation
      reads directory
    {
      if refusal.Some? then Refused(refusal.value) else Created(|directory.accounts| == 0)
    }

    constructor (session: GameSession, directory: AccountDirectory, roster: CharacterRoster)
      ensures this.session == session && this.directory == directory && this.roster == roster
      ensures fresh(frame) && Valid()
      ensures Snapshot() == Cleared && user == None
    {
      this.session := session;
      this.directory := directory;
      this.roster := roster;
      frame := new Frame(session, LoginFrame);
      state := Some(Username);
      username := None;
      password := None;
      user := None;
    }

    /** `add_parser(self)`: the frame goes on top, then `on_start` sends the
        welcome screen and the first prompt. */
    method Start()
      requires Valid()
      modifies session
      ensures session.parserStack == old(session.parserStack) + [frame]
      ensures session.outgoing == old(session.outgoing) + Texts([WELCOME] + Prompt(state, username))
      ensures session.user == old(session.user) && session.playview == old(session.playview)
        && session.delivered == old(session.delivered)
    {
      session.AddParser(frame);
      session.SendText(WELCOME);
      Render();
    }

    /** `render`: the prompt of the current state. */
    method Render()
      modifies session
      ensures session.outgoing == old(session.outgoing) + Texts(Prompt(state, username))
      ensures session.parserStack == old(session.parserStack)
      ensures session.user == old(session.user) && session.playview == old(session.playview)
        && session.delivered == old(session.delivered)
    {
      var prompt := Prompt(state, username);
      if prompt != [] {
        session.SendText(prompt[0]);
      }
    }

    /** `clear`. */
    method Clear()
      modifies this
      ensures Snapshot() == Cleared && user == None
    {
      state := Some(Username);
      username := None;
      password := None;
      user := None;
    }

    /** `close`: `on_close` sets the state to None, then the frame leaves the stack. */
    method Close()
      requires frame.session == session
      modifies this, session
      ensures state == None && username == old(username) && password == old(password) && user == old(user)
      ensures session.parserStack == RemoveFirst(old(session.parserStack), frame)
      ensures session.outgoing == old(session.outgoing)
      ensures session.user == old(session.user) && session.playview == old(session.playview)
    {
      state := None;
      frame.Close();
    }

    /** `login`: close this screen, log the session in and start the main menu. */
    method Login() returns (menu: MainMenuParser)
      requires user.Some? && frame.session == session
      modifies this, session, user.value
      ensures state == None && username == old(username) && password == old(password) && user == old(user)
      ensures session.user == old(user) && user.value.sessions == old(user.value.sessions) + {session}
      ensures user.value.owned == old(user.value.owned)
      ensures fresh(menu.frame) && menu.session == session && menu.frame.kind == MainMenuFrame
      ensures menu.directory == directory && menu.roster == roster
      ensures session.parserStack == RemoveFirst(old(session.parserStack), frame) + [menu.frame]
      ensures session.outgoing == old(session.outgoing) + MenuMessages(|user.value.sessions|, user.value.owned)
      ensures session.playview == old(session.playview)
    {
      Close();
      session.Login(user.value);
      menu := new MainMenuParser(session, directory, roster);
      menu.Start();
    }

    /** `handle_username`. */
    method HandleUsername(text: string)
      requires state == Some(Username)
      modifies this
      ensures Snapshot() == OnUsername(old(Snapshot()), text, old(FindAccount(directory.accounts, Strip(text))).Some?)
      ensures user == if Strip(text) == [] then old(user) else FindAccount(directory.accounts, Strip(text))
      ensures UserAgrees()
    {
      var name := Strip(text);
      if name == [] {
        return;
      }
      username := Some(name);
      user := FindAccount(directory.accounts, name);
      state := Some(if user.Some? then WelcomePassword else UsernameConfirm);
    }

    /** `handle_username_confirm`. */
    method HandleUsernameConfirm(text: string)
      requires state == Some(UsernameConfirm)
      modifies this
      ensures Snapshot() == OnConfirm(old(Snapshot()), text)
      ensures user == if Lower(Strip(text)) == "no" then None else old(user)
      ensures old(UserAgrees()) ==> UserAgrees()
    {
      var answer := Lower(Strip(text));
      if answer == [] {
        return;
      }
      if answer == "yes" {
        state := Some(NewPassword);
      } else if answer == "no" {
        Clear();
      }
    }

    /** `handle_new_password`. */
    method HandleNewPassword(text: string)
      requires state == Some(NewPassword)
      modifies this, session
      ensures Snapshot() == OnNewPassword(old(Snapshot()), text) && user == old(user)
      ensures old(UserAgrees()) ==> UserAgrees()
      ensures session.outgoing == old(session.outgoing) + Texts(NewPasswordTexts(text))
      ensures session.parserStack == old(session.parserStack)
      ensures session.user == old(session.user) && session.playview == old(session.playview)
    {
      if Strip(text) != text {
        session.SendText(NO_OUTER_SPACE);
        return;
      }
      password := Some(text);
      state := Some(PasswordConfirm);
    }

    /** `handle_welcome_password`: a verified password logs in; any other is
        refused with a message. */
    method HandleWelcomePassword(text: string) returns (menu: Option<MainMenuParser>)
      requires state == Some(WelcomePassword) && user.Some? && frame.session == session
      modifies this, session, user.value
      ensures user == old(user) && user.value.owned == old(user.value.owned)
      ensures Snapshot() == OnWelcomePassword(old(Snapshot()), text, directory.verify(user.value.passwordHash, text))
      ensures menu.Some? <==> state.None?
      ensures menu.None? ==> session.parserStack == old(session.parserStack) && session.user == old(session.user)
      ensures menu.None? ==> user.value.sessions == old(user.value.sessions)
      ensures menu.None? ==> session.outgoing == old(session.outgoing) + Texts(WelcomeTexts(text, directory.verify(user.value.passwordHash, text)))
      ensures menu.Some? ==> session.user == user && user.value.sessions == old(user.value.sessions) + {session}
      ensures menu.Some? ==> fresh(menu.value.frame) && menu.value.session == session
      ensures menu.Some? ==> session.parserStack == RemoveFirst(old(session.parserStack), frame) + [menu.value.frame]
      ensures menu.Some? ==> (session.outgoing == old(session.outgoing)
        + Texts(WelcomeTexts(text, directory.verify(user.value.passwordHash, text)))
        + MenuMessages(|user.value.sessions|, user.value.owned))
      ensures session.playview == old(session.playview)
    {
      ghost var sent := WelcomeTexts(text, directory.verify(user.value.passwordHash, text));
      if HasOuterSpace(text) {
        session.SendText(NO_OUTER_SPACE);
        menu := None;
        assert sent == [NO_OUTER_SPACE];
      } else if directory.verify(user.value.passwordHash, text) {
        var m := Login();
        menu := Some(m);
        assert sent == [];
      } else {
        session.SendText(INVALID_CREDENTIALS);
        menu := None;
        assert sent == [INVALID_CREDENTIALS];
      }
    }

    /** `create_user`: the account is created as a superuser when none existed
        before, and then logs in; a refused creation sends the error text and
        clears the screen. */
    method CreateUser(refusal: Option<string>) returns (menu: Option<MainMenuParser>)
      requires state == Some(PasswordConfirm) && username.Some? && password.Some? && user.None?
      requires frame.session == session
      modifies this, session, directory
      ensures refusal.Some? ==> Snapshot() == Cleared && user == None && menu.None?
      ensures refusal.Some? ==> directory.accounts == old(directory.accounts)
      ensures refusal.Some? ==> session.parserStack == old(session.parserStack) && session.user == old(session.user)
      ensures refusal.Some? ==> session.outgoing == old(session.outgoing) + Texts([refusal.value])
      ensures refusal.None? ==> user.Some? && menu.Some? && fresh(user.value)
      ensures refusal.None? ==> directory.accounts == old(directory.accounts) + [user.value]
      ensures refusal.None? ==> (user.value.username == old(username).value
        && user.value.passwordHash == directory.hash(old(password).value)
        && user.value.isSuperuser == (old(|directory.accounts|) == 0) && user.value.level == 0)
      ensures refusal.None? ==> Snapshot() == old(Snapshot()).(state := None)
      ensures refusal.None? ==> session.user == user && user.value.sessions == {session} && user.value.owned == []
      ensures refusal.None? ==> fresh(menu.value.frame) && menu.value.session == session
      ensures refusal.None? ==> session.parserStack == RemoveFirst(old(session.parserStack), frame) + [menu.value.frame]
      ensures refusal.None? ==> (session.outgoing == old(session.outgoing)
        + Texts(if old(|directory.accounts|) == 0 then [FIRST_USER] else [])
        + MenuMessages(1, []))
      ensures session.playview == old(session.playview)
    {
      var first := |directory.accounts| == 0;
      var r := directory.Create(username.value, password.value, first, refusal);
      if r.Failure? {
        session.SendText(r.error);
        Clear();
        return None;
      }
      user := Some(r.value);
      if first {
        session.SendText(FIRST_USER);
      }
      var m := Login();
      menu := Some(m);
    }

    /** The confirmation differs from the new password: it is asked for again. */
    method AskAgain()
      modifies this, session
      ensures Snapshot() == old(Snapshot()).(password := None, state := Some(NewPassword)) && user == old(user)
      ensures session.outgoing == old(session.outgoing) + Texts([MISMATCH])
      ensures session.parserStack == old(session.parserStack)
      ensures session.user == old(session.user) && session.playview == old(session.playview)
    {
      session.SendText(MISMATCH);
      password := None;
      state := Some(NewPassword);
    }

    /** `handle_password_confirm`: a padded line is refused, a different
        password forgets the first one and asks again, the same password creates
        the account. */
    method HandlePasswordConfirm(text: string, refusal: Option<string>) returns (menu: Option<MainMenuParser>)
      requires state == Some(PasswordConfirm) && username.Some? && password.Some? && user.None?
      requires frame.session == session
      modifies this, session, directory
      ensures Snapshot() == OnPasswordConfirm(old(Snapshot()), text, old(CreationFor(refusal)))
      ensures menu.Some? <==> state.None?
      ensures menu.None? ==> session.parserStack == old(session.parserStack) && session.user == old(session.user)
      ensures menu.None? ==> user == None
      ensures menu.None? ==> session.outgoing == old(session.outgoing) + Texts(ConfirmTexts(old(Snapshot()), text, old(CreationFor(refusal))))
      ensures menu.Some? ==> user.Some? && fresh(user.value) && session.user == user
      ensures menu.Some? ==> user.value.sessions == {session} && user.value.owned == []
      ensures menu.Some? ==> directory.accounts == old(directory.accounts) + [user.value]
      ensures menu.Some? ==> session.parserStack == RemoveFirst(old(session.parserStack), frame) + [menu.value.frame]
      ensures menu.Some? ==> (session.outgoing == old(session.outgoing)
        + Texts(ConfirmTexts(old(Snapshot()), text, old(CreationFor(refusal))))
        + MenuMessages(|user.value.sessions|, user.value.owned))
      ensures session.playview == old(session.playview)
    {
      ghost var sent := ConfirmTexts(Snapshot(), text, CreationFor(refusal));
      if HasOuterSpace(text) {
        session.SendText(NO_OUTER_SPACE);
        menu := None;
        assert sent == [NO_OUTER_SPACE];
      } else if password != Some(text) {
        AskAgain();
        menu := None;
        assert sent == [MISMATCH];
      } else {
        assert sent == if refusal.Some? then [refusal.value] else if |directory.accounts| == 0 then [FIRST_USER] else [];
        menu := CreateUser(refusal);
      }
    }

    /** The handlers of the states that only ask for the next line: the name,
        its confirmation and a new password. */
    method Ask(text: string, refusal: Option<string>)
      requires Valid() && !IsReturn(text)
      requires state == Some(Username) || state == Some(UsernameConfirm) || state == Some(NewPassword)
      modifies this, session
      ensures Snapshot() == Next(old(Snapshot()), text, old(AnswersFor(text, refusal))) && state.Some?
      ensures session.outgoing == old(session.outgoing)
        + Texts(HandlerTexts(old(Snapshot()), text, old(AnswersFor(text, refusal))))
      ensures session.parserStack == old(session.parserStack) && session.user == old(session.user)
      ensures session.playview == old(session.playview)
      ensures UserAgrees()
    {
      ghost var m0 := Snapshot();
      ghost var a := AnswersFor(text, refusal);
      StepByState(m0, text, a);
      match state.value
      case Username =>
        HandleUsername(text);
        assert HandlerTexts(m0, text, a) == [];
      case UsernameConfirm =>
        HandleUsernameConfirm(text);
        assert HandlerTexts(m0, text, a) == [];
      case NewPassword =>
        HandleNewPassword(text);
        assert HandlerTexts(m0, text, a) == NewPasswordTexts(text);
    }

    /** The handlers of the states that consult the accounts: the password of an
        existing account and the confirmation of a new one. Either may log in. */
    method Answer(text: string, refusal: Option<string>) returns (menu: Option<MainMenuParser>)
      requires Valid() && !IsReturn(text)
      requires state == Some(WelcomePassword) || state == Some(PasswordConfirm)
      modifies this, session, directory, if user.Some? then {user.value} else {}
      ensures Snapshot() == Next(old(Snapshot()), text, old(AnswersFor(text, refusal)))
      ensures menu.Some? <==> state.None?
      ensures menu.Some? ==> user.Some? && session.user == user && session in user.value.sessions
      ensures menu.None? ==> (session.outgoing == old(session.outgoing)
        + Texts(HandlerTexts(old(Snapshot()), text, old(AnswersFor(text, refusal)))))
      ensures menu.Some? ==> (session.outgoing == old(session.outgoing)
        + Texts(HandlerTexts(old(Snapshot()), text, old(AnswersFor(text, refusal))))
        + MenuMessages(|user.value.sessions|, user.value.owned))
      ensures menu.None? ==> session.parserStack == old(session.parserStack) && session.user == old(session.user)
      ensures menu.None? ==> UserAgrees()
      ensures menu.Some? ==> session.parserStack == RemoveFirst(old(session.parserStack), frame) + [menu.value.frame]
      ensures session.playview == old(session.playview)
    {
      ghost var m0 := Snapshot();
      ghost var a := AnswersFor(text, refusal);
      StepByState(m0, text, a);
      assert frame.session == session;
      if state == Some(WelcomePassword) {
        assert user.Some?;
        menu := HandleWelcomePassword(text);
        assert HandlerTexts(m0, text, a) == WelcomeTexts(text, directory.verify(user.value.passwordHash, text));
      } else {
        assert username.Some? && password.Some? && user.None?;
        menu := HandlePasswordConfirm(text, refusal);
        assert HandlerTexts(m0, text, a) == ConfirmTexts(m0, text, a.creation);
      }
    }

    /** The handler of the current state, for a line that is not "return". */
    method Dispatch(text: string, refusal: Option<string>) returns (menu: Option<MainMenuParser>)
      requires Valid() && state.Some? && !IsReturn(text)
      modifies this, session, directory, if user.Some? then {user.value} else {}
      ensures Snapshot() == Next(old(Snapshot()), text, old(AnswersFor(text, refusal)))
      ensures menu.Some? <==> state.None?
      ensures menu.Some? ==> user.Some? && session.user == user && session in user.value.sessions
      ensures menu.None? ==> (session.outgoing == old(session.outgoing)
        + Texts(HandlerTexts(old(Snapshot()), text, old(AnswersFor(text, refusal)))))
      ensures menu.Some? ==> (session.outgoing == old(session.outgoing)
        + Texts(HandlerTexts(old(Snapshot()), text, old(AnswersFor(text, refusal))))
        + MenuMessages(|user.value.sessions|, user.value.owned))
      ensures menu.None? ==> session.parserStack == old(session.parserStack) && session.user == old(session.user)
      ensures menu.None? ==> UserAgrees()
      ensures menu.Some? ==> session.parserStack == RemoveFirst(old(session.parserStack), frame) + [menu.value.frame]
      ensures session.playview == old(session.playview)
    {
      match state.value
      case Username =>
        Ask(text, refusal);
        menu := None;
      case UsernameConfirm =>
        Ask(text, refusal);
        menu := None;
      case NewPassword =>
        Ask(text, refusal);
        menu := None;
      case WelcomePassword =>
        menu := Answer(text, refusal);
      case PasswordConfirm =>
        menu := Answer(text, refusal);
    }

    /** `parse`: "return" in any case starts over; any other line goes to the
        handler of the current state; then the prompt of the new state is sent
        (a screen that logged in is closed and prompts nothing). */
    method Parse(text: string, refusal: Option<string>) returns (menu: Option<MainMenuParser>)
      requires Valid() && Accepts(Snapshot(), text)
      modifies this, session, directory, if user.Some? then {user.value} else {}
      ensures Valid()
      ensures Snapshot() == Next(old(Snapshot()), text, old(AnswersFor(text, refusal)))
      ensures menu.Some? <==> LogsIn(old(Snapshot()), text, old(AnswersFor(text, refusal)))
      ensures menu.Some? ==> user.Some? && session.user == user && session in user.value.sessions
      ensures menu.None? ==> (session.outgoing == old(session.outgoing)
        + Texts(HandlerTexts(old(Snapshot()), text, old(AnswersFor(text, refusal))) + Prompt(state, username)))
      ensures menu.Some? ==> (session.outgoing == old(session.outgoing)
        + Texts(HandlerTexts(old(Snapshot()), text, old(AnswersFor(text, refusal))))
        + MenuMessages(|user.value.sessions|, user.value.owned))
      ensures menu.None? ==> session.parserStack == old(session.parserStack) && session.user == old(session.user)
      ensures menu.Some? ==> session.parserStack == RemoveFirst(old(session.parserStack), frame) + [menu.value.frame]
      ensures session.playview == old(session.playview)
    {
      ghost var m0 := Snapshot();
      ghost var a := AnswersFor(text, refusal);
      NextKeepsWellFormed(m0, text, a);
      if IsReturn(text) {
        Clear();
        menu := None;
      } else {
        menu := Dispatch(text, refusal);
      }
      ghost var sent := session.outgoing;
      ghost var handled := HandlerTexts(m0, text, a);
      Render();
      if menu.Some? {
        assert session.outgoing == sent;
      } else {
        assert sent == old(session.outgoing) + Texts(handled);
        assert session.outgoing == sent + Texts(Prompt(state, username));
        TextsAppend(old(session.outgoing), handled, Prompt(state, username));
      }
    }
  }

  /** The main menu. */
  class MainMenuParser {
    const session: GameSession
    const frame: Frame
    const directory: AccountDirectory
    const roster: CharacterRoster

    constructor (session: GameSession, directory: AccountDirectory, roster: CharacterRoster)
      ensures this.session == session && this.directory == directory && this.roster == roster
      ensures fresh(frame) && frame.session == session && frame.kind == MainMenuFrame && !frame.priority
    {
      this.session := session;
      this.directory := directory;
      this.roster := roster;
      frame := new Frame(session, MainMenuFrame);
    }

    /** `add_parser(self)`: the frame goes on top and `on_start` draws the menu. */
    method Start()
      requires session.user.Some?
      modifies session
      ensures session.user == old(session.user) && session.playview == old(session.playview)
      ensures session.parserStack == old(session.parserStack) + [frame]
      ensures session.outgoing == old(session.outgoing)
        + MenuMessages(|session.user.value.sessions|, session.user.value.owned)
    {
      session.AddParser(frame);
      Render();
    }

    /** `render`. */
    method Render()
      requires session.user.Some?
      modifies session
      ensures session.user == old(session.user) && session.playview == old(session.playview)
      ensures session.outgoing == old(session.outgoing)
        + MenuMessages(|session.user.value.sessions|, session.user.value.owned)
      ensures session.parserStack == old(session.parserStack)
    {
      var u := session.user.value;
      session.SendEvent("Table", SessionsTable(|u.sessions|));
      if u.owned != [] {
        session.SendEvent("Table", CharactersTable(u.owned));
      }
      session.SendEvent("Table", CommandsTable());
    }

    /** `handle_play`: each failed check sends its message and stops; a character
        that may not be played stops silently; otherwise the menu closes and the
        character is joined. */
    method HandlePlay(args: string, partialMatch: (string, seq<string>) -> Option<string>,
                      canPlay: string -> bool) returns (outcome: PlayOutcome)
      requires session.user.Some? && frame.session == session
      modifies session
      ensures outcome == PlayDecision(old(session.user.value.owned), args, partialMatch, canPlay)
      ensures session.outgoing == old(session.outgoing) + Texts(PlayTexts(outcome))
      ensures session.parserStack == if outcome.Joined? then RemoveFirst(old(session.parserStack), frame)
                                     else old(session.parserStack)
      ensures session.user == old(session.user) && session.playview == old(session.playview)
    {
      var owned := session.user.value.owned;
      outcome := PlayDecision(owned, args, partialMatch, canPlay);
      if owned == [] {
        session.SendText("You have no characters!");
        return;
      }
      if args == [] {
        session.SendText("Play which character?");
        return;
      }
      var found := partialMatch(args, owned);
      if found.None? {
        session.SendText("That didn't match any of your available characters.");
        return;
      }
      if !canPlay(found.value) {
        return;
      }
      frame.Close();
    }

    /** `handle_create`: a name already used by any player character, in any case,
        is refused; otherwise the character is created, owned by the account, the
        menu is redrawn and the creation announced. */
    method HandleCreate(args: string) returns (created: bool)
      requires session.user.Some?
      modifies session, roster, session.user.value
      ensures session.user == old(session.user) && session.user.value.sessions == old(session.user.value.sessions)
      ensures created <==> !NameTaken(old(roster.names), args)
      ensures !created ==> roster.names == old(roster.names) && session.user.value.owned == old(session.user.value.owned)
      ensures !created ==> session.outgoing == old(session.outgoing) + Texts(["A player character with that name already exists."])
      ensures created ==> roster.names == old(roster.names) + [args]
      ensures created ==> session.user.value.owned == old(session.user.value.owned) + [args]
      ensures created ==> (session.outgoing == old(session.outgoing)
        + MenuMessages(|session.user.value.sessions|, session.user.value.owned)
        + Texts(["Created new character: " + args]))
      ensures session.parserStack == old(session.parserStack) && session.playview == old(session.playview)
    {
      var i := 0;
      while i < |roster.names|
        invariant 0 <= i <= |roster.names|
        invariant forall j :: 0 <= j < i ==> Lower(roster.names[j]) != Lower(args)
      {
        if Lower(roster.names[i]) == Lower(args) {
          session.SendText("A player character with that name already exists.");
          return false;
        }
        i := i + 1;
      }
      var u := session.user.value;
      roster.names := roster.names + [args];
      u.owned := u.owned + [args];
      Render();
      session.SendText("Created new character: " + args);
      created := true;
    }

    /** `handle_logout`: close the menu, log the session out, then push a fresh
        login screen, in that order. */
    method HandleLogout() returns (login: LoginParser)
      requires session.user.Some? && session in session.user.value.sessions && frame.session == session
      modifies session, session.user.value
      ensures session.user == None
      ensures old(session.user.value).sessions == old(session.user.value.sessions) - {session}
      ensures fresh(login) && fresh(login.frame) && login.Valid() && login.session == session
      ensures login.Snapshot() == Cleared
      ensures session.parserStack == RemoveFirst(old(session.parserStack), frame) + [login.frame]
      ensures session.outgoing == old(session.outgoing) + Texts([WELCOME, "Enter Username:"])
      ensures session.playview == old(session.playview)
    {
      frame.Close();
      session.Logout();
      login := StartFresh(session, directory, roster);
    }

    /** `parse`: a blank line redraws the menu; `play`, `create` and `logout`
        (first word, any case) run their handlers; anything else does nothing. */
    method Parse(text: string, partialMatch: (string, seq<string>) -> Option<string>,
                 canPlay: string -> bool) returns (action: MenuAction)
      requires session.user.Some? && frame.session == session
      requires MenuCommand(text) == Logout ==> session in session.user.value.sessions
      modifies session, roster, session.user.value
      ensures action == MenuCommand(text)
      ensures action == Redraw ==> session.user == old(session.user)
      ensures action == Redraw ==> (session.outgoing == old(session.outgoing)
        + MenuMessages(|session.user.value.sessions|, session.user.value.owned))
      ensures action == Redraw ==> session.parserStack == old(session.parserStack) && roster.names == old(roster.names)
      ensures action.Play? ==> session.user == old(session.user) && roster.names == old(roster.names)
      ensures action.Play? ==>
        var outcome := PlayDecision(old(session.user.value.owned), action.args, partialMatch, canPlay);
        session.outgoing == old(session.outgoing) + Texts(PlayTexts(outcome))
        && session.parserStack == if outcome.Joined? then RemoveFirst(old(session.parserStack), frame)
                                  else old(session.parserStack)
      ensures action.Create? ==> session.user == old(session.user) && session.parserStack == old(session.parserStack)
      ensures action.Create? && NameTaken(old(roster.names), action.args) ==>
        roster.names == old(roster.names) && session.user.value.owned == old(session.user.value.owned)
        && session.outgoing == old(session.outgoing) + Texts(["A player character with that name already exists."])
      ensures action.Create? && !NameTaken(old(roster.names), action.args) ==>
        roster.names == old(roster.names) + [action.args]
        && session.user.value.owned == old(session.user.value.owned) + [action.args]
        && session.outgoing == old(session.outgoing)
          + MenuMessages(|session.user.value.sessions|, session.user.value.owned)
          + Texts(["Created new character: " + action.args])
      ensures action == NoAction ==>
        session.outgoing == old(session.outgoing)
        && session.parserStack == old(session.parserStack) && roster.names == old(roster.names)
      ensures action == Logout ==> session.user == None
      ensures action == Logout ==>
        var rest := RemoveFirst(old(session.parserStack), frame);
        |session.parserStack| == |rest| + 1 && session.parserStack[..|rest|] == rest
        && fresh(session.parserStack[|rest|]) && session.parserStack[|rest|].kind == LoginFrame
        && session.parserStack[|rest|].session == session
        && session.outgoing == old(session.outgoing) + Texts([WELCOME, "Enter Username:"])
      ensures session.playview == old(session.playview)
    {
      action := MenuCommand(text);
      match action
      case Redraw => Render();
      case Play(args) => var _ := HandlePlay(args, partialMatch, canPlay);
      case Create(args) => var _ := HandleCreate(args);
      case Logout =>
        ghost var rest := RemoveFirst(session.parserStack, frame);
        var login := HandleLogout();
        assert session.parserStack == rest + [login.frame];
        assert session.parserStack[..|rest|] == rest;
      case NoAction =>
    }
  }

  /** `start_fresh`: a new login screen is pushed and started. */
  method StartFresh(session: GameSession, directory: AccountDirectory, roster: CharacterRoster)
    returns (login: LoginParser)
    modifies session
    ensures fresh(login) && fresh(login.frame) && login.Valid() && login.session == session
    ensures login.directory == directory && login.roster == roster
    ensures login.Snapshot() == Cleared && login.user == None
    ensures session.parserStack == old(session.parserStack) + [login.frame]
    ensures session.outgoing == old(session.outgoing) + Texts([WELCOME, "Enter Username:"])
    ensures session.user == old(session.user) && session.playview == old(session.playview)
      && session.delivered == old(session.delivered)
  {
    login := new LoginParser(session, directory, roster);
    login.Start();
  }

  /** `run`: `start` pushes a fresh login screen, whose greeting joins the
      queue behind what was already there; then the writer loop emits every
      queued message that has an event name, in queue order. */
  method RunSession(session: GameSession, directory: AccountDirectory, roster: CharacterRoster)
    returns (login: LoginParser)
    modifies session
    ensures fresh(login) && fresh(login.frame) && login.Valid() && login.session == session
    ensures login.Snapshot() == Cleared && login.user == None
    ensures session.parserStack == old(session.parserStack) + [login.frame]
    ensures session.outgoing == []
    ensures session.delivered == old(session.delivered) + Deliverable(old(session.outgoing))
      + Texts([WELCOME, "Enter Username:"])
    ensures session.user == old(session.user) && session.playview == old(session.playview)
  {
    login := StartFresh(session, directory, roster);
    session.Run();
    DeliverableAppend(old(session.outgoing), Texts([WELCOME, "Enter Username:"]));
    GreetingDeliverable();
    MessagesAssoc(old(session.delivered), Deliverable(old(session.outgoing)), Texts([WELCOME, "Enter Username:"]));
  }

  /** The login greeting consists of two Text messages, both emitted. */
  lemma GreetingDeliverable()
    ensures Deliverable(Texts([WELCOME, "Enter Username:"])) == Texts([WELCOME, "Enter Username:"])
  {
    var q := Texts([WELCOME, "Enter Username:"]);
    DeliverableStep(q);
    DeliverableStep(q[1..]);
  }
}
