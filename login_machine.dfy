/** The five-state login conversation that both servers run: what each typed line
    does to the (state, username, password) triple, and the prompt and messages it
    produces. The two servers differ only in how accounts are looked up, created
    and checked; they reach this module as the `Answers` a line received. */
module LoginMachine {
  import opened Wrappers
  import opened Text

  datatype LoginStatus = Username | UsernameConfirm | WelcomePassword | NewPassword | PasswordConfirm

  const WELCOME: string := "HELLO WELCOME SCREEN HERE!"
  const NO_OUTER_SPACE: string := "Passwords may not contain leading or trailing whitespace."
  const INVALID_CREDENTIALS: string := "Invalid credentials. Please try again. (or return)"
  const MISMATCH: string := "Passwords don't match, try again."
  const FIRST_USER: string := "FIRST USER TO BE CREATED. THIS USER IS A SUPERUSER."

  /** How Python formats an optional string inside an f-string. */
  function NameText(name: Option<string>): string {
    if name.Some? then name.value else "None"
  }

  /** `render`: the one prompt of the current state; a closed machine (state
      None) prints nothing. */
  function Prompt(state: Option<LoginStatus>, username: Option<string>): (r: seq<string>)
    ensures |r| <= 1
    ensures r == [] <==> state.None?
    ensures state == Some(Username) ==> r == ["Enter Username:"]
    ensures state == Some(WelcomePassword) ==> r == ["Password (or return):"]
  {
    match state
    case None => []
    case Some(Username) => ["Enter Username:"]
    case Some(UsernameConfirm) =>
      ["You want your Username to be: " + NameText(username) + "\r\nYes or No (or return):"]
    case Some(WelcomePassword) => ["Password (or return):"]
    case Some(NewPassword) =>
      ["Let's set a good password for " + NameText(username) + ".\r\nPassword (or return):"]
    case Some(PasswordConfirm) =>
      ["Enter the password one more time to confirm.\r\nPassword (or return):"]
  }

  /** `text.lower() == "return"`: untrimmed, any letter case. */
  predicate IsReturn(text: string) {
    Lower(text) == "return"
  }

  /** `text.strip() != text`. */
  predicate HasOuterSpace(text: string) {
    Strip(text) != text
  }

  predicate IsPasswordState(state: Option<LoginStatus>) {
    state == Some(WelcomePassword) || state == Some(NewPassword) || state == Some(PasswordConfirm)
  }

  /** How account creation went: created (and whether it was the first account,
      which is made a superuser) or refused with an error text. */
  datatype Creation = Created(first: bool) | Refused(error: string)

  /** What the account store answered while one line was handled: whether the
      trimmed name was found, whether the typed password verified, and how a
      creation went. Only the answer the current state asks for is used. */
  datatype Answers = Answers(found: bool, verified: bool, creation: Creation)

  datatype Machine = Machine(state: Option<LoginStatus>, username: Option<string>, password: Option<string>)

  /** `clear`: back to asking for a name, everything forgotten. */
  const Cleared: Machine := Machine(Some(Username), None, None)

  /** A closed machine (after `on_close`) still parses a "return", which clears it;
      any other line finds no handler. */
  predicate Accepts(m: Machine, text: string) {
    m.state.Some? || IsReturn(text)
  }

  /** `handle_username`: a blank line is ignored; otherwise the trimmed name is
      kept and the machine asks for the password of a known account or for
      confirmation of a new one. */
  function OnUsername(m: Machine, text: string, found: bool): Machine {
    var name := Strip(text);
    if name == [] then m
    else Machine(Some(if found then WelcomePassword else UsernameConfirm), Some(name), m.password)
  }

  /** `handle_username_confirm`: trimmed "yes" / "no" in any case. */
  function OnConfirm(m: Machine, text: string): Machine {
    var answer := Lower(Strip(text));
    if answer == "yes" then m.(state := Some(NewPassword))
    else if answer == "no" then Cleared
    else m
  }

  /** `handle_welcome_password`: a verified password logs in (state None). */
  function OnWelcomePassword(m: Machine, text: string, verified: bool): Machine {
    if HasOuterSpace(text) then m
    else if verified then m.(state := None)
    else m
  }

  /** `handle_new_password`. */
  function OnNewPassword(m: Machine, text: string): Machine {
    if HasOuterSpace(text) then m
    else m.(password := Some(text), state := Some(PasswordConfirm))
  }

  /** `handle_password_confirm` and `create_user`: a created account logs in, a
      refused one clears the machine. */
  function OnPasswordConfirm(m: Machine, text: string, creation: Creation): Machine {
    if HasOuterSpace(text) then m
    else if m.password != Some(text) then m.(password := None, state := Some(NewPassword))
    else if creation.Created? then m.(state := None)
    else Cleared
  }

  /** What `parse` does to the machine. Logging in closes the frame, which sets
      the state to None. */
  function Next(m: Machine, text: string, a: Answers): (r: Machine)
    requires Accepts(m, text)
    ensures IsReturn(text) ==> r == Cleared
    ensures !IsReturn(text) && IsPasswordState(m.state) && HasOuterSpace(text) ==> r == m
  {
    if IsReturn(text) then Cleared
    else
      match m.state.value
      case Username => OnUsername(m, text, a.found)
      case UsernameConfirm => OnConfirm(m, text)
      case WelcomePassword => OnWelcomePassword(m, text, a.verified)
      case NewPassword => OnNewPassword(m, text)
      case PasswordConfirm => OnPasswordConfirm(m, text, a.creation)
  }

  /** Whether this line logs the session in. */
  predicate LogsIn(m: Machine, text: string, a: Answers)
    requires Accepts(m, text)
  {
    !IsReturn(text) && Next(m, text, a).state.None?
  }

  /** What `Next` and `HandlerTexts` come to in each state, for a line that is
      not "return". */
  lemma StepByState(m: Machine, text: string, a: Answers)
    requires m.state.Some? && !IsReturn(text)
    ensures m.state == Some(Username) ==> Next(m, text, a) == OnUsername(m, text, a.found) && HandlerTexts(m, text, a) == []
    ensures m.state == Some(UsernameConfirm) ==> Next(m, text, a) == OnConfirm(m, text) && HandlerTexts(m, text, a) == []
    ensures m.state == Some(WelcomePassword) ==>
      Next(m, text, a) == OnWelcomePassword(m, text, a.verified) && HandlerTexts(m, text, a) == WelcomeTexts(text, a.verified)
    ensures m.state == Some(NewPassword) ==>
      Next(m, text, a) == OnNewPassword(m, text) && HandlerTexts(m, text, a) == NewPasswordTexts(text)
    ensures m.state == Some(PasswordConfirm) ==>
      Next(m, text, a) == OnPasswordConfirm(m, text, a.creation) && HandlerTexts(m, text, a) == ConfirmTexts(m, text, a.creation)
  {
  }

  /** Only a verified password or a confirmed and created account logs in. */
  lemma LoginNeedsPassword(m: Machine, text: string, a: Answers)
    requires Accepts(m, text) && LogsIn(m, text, a)
    ensures !HasOuterSpace(text)
    ensures (m.state == Some(WelcomePassword) && a.verified)
      || (m.state == Some(PasswordConfirm) && m.password == Some(text) && a.creation.Created?)
  {
    if m.state == Some(WelcomePassword) {
      assert Next(m, text, a) == OnWelcomePassword(m, text, a.verified);
    } else if m.state == Some(PasswordConfirm) {
      assert Next(m, text, a) == OnPasswordConfirm(m, text, a.creation);
    }
  }

  /** The texts `handle_welcome_password` sends. */
  function WelcomeTexts(text: string, verified: bool): seq<string> {
    if HasOuterSpace(text) then [NO_OUTER_SPACE] else if verified then [] else [INVALID_CREDENTIALS]
  }

  /** The texts `handle_new_password` sends. */
  function NewPasswordTexts(text: string): seq<string> {
    if HasOuterSpace(text) then [NO_OUTER_SPACE] else []
  }

  /** The texts `handle_password_confirm` and `create_user` send. */
  function ConfirmTexts(m: Machine, text: string, creation: Creation): seq<string> {
    if HasOuterSpace(text) then [NO_OUTER_SPACE]
    else if m.password != Some(text) then [MISMATCH]
    else CreationTexts(creation)
  }

  /** The texts `create_user` sends: the superuser notice for the first account,
      the error of a refused one. */
  function CreationTexts(creation: Creation): seq<string> {
    match creation
    case Created(first) => if first then [FIRST_USER] else []
    case Refused(error) => [error]
  }

  /** The texts the handler itself sends, before the closing prompt. */
  function HandlerTexts(m: Machine, text: string, a: Answers): (r: seq<string>)
    requires Accepts(m, text)
    ensures IsReturn(text) ==> r == []
    ensures !IsReturn(text) && IsPasswordState(m.state) && HasOuterSpace(text) ==> r == [NO_OUTER_SPACE]
    ensures |r| <= 1
  {
    if IsReturn(text) then []
    else
      match m.state.value
      case WelcomePassword => WelcomeTexts(text, a.verified)
      case NewPassword => NewPasswordTexts(text)
      case PasswordConfirm => ConfirmTexts(m, text, a.creation)
      case _ => []
  }

  /** What the conversation keeps true: past the first state a non-blank trimmed
      name is held, a password is held exactly while it waits for confirmation,
      and a held password has no outer whitespace. */
  predicate WellFormed(m: Machine) {
    (m.state.Some? && m.state != Some(Username) ==>
      m.username.Some? && m.username.value != [] && Strip(m.username.value) == m.username.value)
    && (m.state == Some(Username) ==> m.username.None?)
    && (m.state.Some? ==> (m.password.Some? <==> m.state == Some(PasswordConfirm)))
    && (m.password.Some? ==> !HasOuterSpace(m.password.value))
  }

  /** Every line keeps the conversation well formed. */
  lemma NextKeepsWellFormed(m: Machine, text: string, a: Answers)
    requires WellFormed(m) && Accepts(m, text)
    ensures WellFormed(Next(m, text, a))
  {
    if IsReturn(text) {
      assert Next(m, text, a) == Cleared;
    } else {
      match m.state.value
      case Username =>
        var r := OnUsername(m, text, a.found);
        assert Next(m, text, a) == r;
        if Strip(text) != [] {
          StripIdempotent(text);
          assert r.username == Some(Strip(text)) && r.password == m.password && r.state != Some(Username);
        } else {
          assert r == m;
        }
      case UsernameConfirm =>
        var r := OnConfirm(m, text);
        assert Next(m, text, a) == r;
        assert r == m || r == Cleared || r == m.(state := Some(NewPassword));
      case WelcomePassword =>
        var r := OnWelcomePassword(m, text, a.verified);
        assert Next(m, text, a) == r;
        assert r == m || r == m.(state := None);
      case NewPassword =>
        var r := OnNewPassword(m, text);
        assert Next(m, text, a) == r;
        assert r == m || (r == m.(password := Some(text), state := Some(PasswordConfirm)) && !HasOuterSpace(text));
      case PasswordConfirm =>
        PasswordConfirmKeepsWellFormed(m, text, a.creation);
    }
  }

  lemma PasswordConfirmKeepsWellFormed(m: Machine, text: string, creation: Creation)
    requires WellFormed(m) && m.state == Some(PasswordConfirm)
    ensures WellFormed(OnPasswordConfirm(m, text, creation))
  {
    var r := OnPasswordConfirm(m, text, creation);
    if HasOuterSpace(text) {
      assert r == m;
    } else if m.password != Some(text) {
      assert r == Machine(Some(NewPassword), m.username, None);
    } else if creation.Created? {
      assert r == Machine(None, m.username, m.password);
    } else {
      assert r == Cleared;
    }
  }

  /** "return" resets from every state, a closed one included. */
  lemma ReturnResets(m: Machine, a: Answers)
    ensures Accepts(m, "RETURN") && Next(m, "RETURN", a) == Cleared
    ensures !Accepts(m, " return") ==> m.state.None?
  {
    assert Lower("RETURN") == "return";
  }

  /** In the first state a blank or whitespace-only line changes nothing; any
      other line is stored trimmed and moves on according to the lookup. */
  lemma UsernameStep(m: Machine, text: string, a: Answers)
    requires m.state == Some(Username) && !IsReturn(text)
    ensures Strip(text) == [] ==> Next(m, text, a) == m
    ensures Strip(text) != [] ==>
      Next(m, text, a).username == Some(Strip(text))
      && Next(m, text, a).state == Some(if a.found then WelcomePassword else UsernameConfirm)
  {
  }

  /** The confirmation is read trimmed and lowered: "yes" asks for a password, "no"
      starts over, any other word is ignored. */
  lemma ConfirmStep(m: Machine, text: string, a: Answers)
    requires m.state == Some(UsernameConfirm) && !IsReturn(text)
    ensures Lower(Strip(text)) == "yes" ==> Next(m, text, a) == m.(state := Some(NewPassword))
    ensures Lower(Strip(text)) == "no" ==> Next(m, text, a) == Cleared
    ensures Lower(Strip(text)) != "yes" && Lower(Strip(text)) != "no" ==> Next(m, text, a) == m
  {
  }

  /** A confirmation that differs from the stored password forgets it and asks again. */
  lemma MismatchAsksAgain(name: string, pw: string, text: string, a: Answers)
    requires !IsReturn(text) && !HasOuterSpace(text) && pw != text
    ensures Next(Machine(Some(PasswordConfirm), Some(name), Some(pw)), text, a)
      == Machine(Some(NewPassword), Some(name), None)
    ensures HandlerTexts(Machine(Some(PasswordConfirm), Some(name), Some(pw)), text, a) == [MISMATCH]
  {
  }
}
