/** Commands: alias matching, the display name and the hook sequence of `run`,
    for the document-backed engine (errors go to the caller as text) and the
    stack-of-parsers engine (errors are collected as sendables and forwarded to
    the playview). */
module Commands {
  import opened Wrappers
  import opened Text

  /** One entry of a command's `keys`: the alias and its optional minimum. */
  datatype Alias = Alias(key: string, minimum: Option<int>)

  /** Python's `s[:v]` for an integer `v`: a negative bound counts from the end,
      and a bound past either end is clamped. */
  function PyPrefix(s: string, v: int): (r: string)
    ensures r <= s
    ensures 0 <= v ==> |r| == (if v < |s| then v else |s|)
    ensures v < 0 ==> |r| == (if -v < |s| then |s| + v else 0)
  {
    if v >= |s| then s
    else if v >= 0 then s[..v]
    else if -v >= |s| then []
    else s[..|s| + v]
  }

  /** `cls.name`: the first alias; `next(iter({}))` raises for a command without
      aliases. */
  function Name(keys: seq<Alias>): Option<string> {
    if keys == [] then None else Some(keys[0].key)
  }

  /** The test `match` applies to one alias, as written: with an integer minimum
      `v` the lowered text must start `key[:v]` (and the key); without one it
      must start the key. */
  predicate QualifiesAsWritten(a: Alias, text: string) {
    var lower := Lower(text);
    var key := Lower(a.key);
    if a.minimum.Some? then lower <= PyPrefix(key, a.minimum.value) && lower <= key
    else lower <= key
  }

  /** The test the comment on `keys` describes: the text starts the alias and is
      at least the minimum long. */
  predicate Qualifies(a: Alias, text: string) {
    Lower(text) <= Lower(a.key) && (a.minimum.Some? ==> |text| >= a.minimum.value)
  }

  /** The first index whose alias passes the test, if any. */
  function FirstHit(keys: seq<Alias>, text: string, asWritten: bool): (r: Option<nat>)
    ensures r.Some? ==> (r.value < |keys|
      && (if asWritten then QualifiesAsWritten(keys[r.value], text) else Qualifies(keys[r.value], text)))
    ensures r.Some? ==> forall j :: 0 <= j < r.value ==>
      !(if asWritten then QualifiesAsWritten(keys[j], text) else Qualifies(keys[j], text))
    ensures r.None? ==> forall j :: 0 <= j < |keys| ==>
      !(if asWritten then QualifiesAsWritten(keys[j], text) else Qualifies(keys[j], text))
  {
    if keys == [] then None
    else if (if asWritten then QualifiesAsWritten(keys[0], text) else Qualifies(keys[0], text)) then Some(0)
    else
      match FirstHit(keys[1..], text, asWritten)
      case None => None
      case Some(i) => Some(i + 1)
  }

  /** `match(obj, text)` as written: the first alias, in insertion order, that
      passes the as-written test, in its own letter case; None when none does. */
  function MatchAsWritten(keys: seq<Alias>, text: string): Option<string> {
    var hit := FirstHit(keys, text, true);
    if hit.Some? then Some(keys[hit.value].key) else None
  }

  /** As written, `match` answers an alias iff one passes the as-written test,
      and then the first such alias in insertion order. */
  lemma MatchAsWrittenIsFirstHit(keys: seq<Alias>, text: string)
    ensures MatchAsWritten(keys, text).Some? <==> exists i :: 0 <= i < |keys| && QualifiesAsWritten(keys[i], text)
    ensures MatchAsWritten(keys, text).Some? ==> exists i :: (0 <= i < |keys| && MatchAsWritten(keys, text).value == keys[i].key
      && QualifiesAsWritten(keys[i], text)
      && forall j :: 0 <= j < i ==> !QualifiesAsWritten(keys[j], text))
  {
  }

  /** `match(obj, text)` with the minimum read as the least length to type. */
  function Match(keys: seq<Alias>, text: string): Option<string> {
    var hit := FirstHit(keys, text, false);
    if hit.Some? then Some(keys[hit.value].key) else None
  }

  /** `match` answers an alias iff one passes the test, and then the first such
      alias in insertion order, in its own letter case. */
  lemma MatchIsFirstHit(keys: seq<Alias>, text: string)
    ensures Match(keys, text).Some? <==> exists i :: 0 <= i < |keys| && Qualifies(keys[i], text)
    ensures Match(keys, text).Some? ==> exists i :: (0 <= i < |keys| && Match(keys, text).value == keys[i].key
      && Qualifies(keys[i], text)
      && forall j :: 0 <= j < i ==> !Qualifies(keys[j], text))
  {
  }

  /** As written, an alias with minimum `v >= 0` accepts exactly the texts of at
      most `v` characters that start it, ignoring case: a longer text never
      matches. */
  lemma AsWrittenMinimumIsMaximum(a: Alias, text: string)
    requires a.minimum.Some? && a.minimum.value >= 0
    ensures QualifiesAsWritten(a, text) <==> |text| <= a.minimum.value && Lower(text) <= Lower(a.key)
  {
    PrefixWithin(Lower(text), Lower(a.key), a.minimum.value);
  }

  /** A text starts `key[:v]` and `key` exactly when it starts `key` and is at
      most `v` long. */
  lemma PrefixWithin(lower: string, key: string, v: nat)
    ensures (lower <= PyPrefix(key, v) && lower <= key) <==> |lower| <= v && lower <= key
  {
    var prefix := PyPrefix(key, v);
    if lower <= prefix && lower <= key {
      assert |lower| <= |prefix|;
    }
    if |lower| <= v && lower <= key {
      assert prefix == key[..|prefix|];
      assert lower == key[..|lower|];
      assert lower == prefix[..|lower|];
    }
  }

  /** `keys = {"look": 1}` accepts "l" but not "look" as written; the intended
      test accepts "look" (and "lo") and rejects the empty text. */
  lemma LookKeysAsWritten()
    ensures MatchAsWritten([Alias("look", Some(1))], "l") == Some("look")
    ensures MatchAsWritten([Alias("look", Some(1))], "look") == None
    ensures Match([Alias("look", Some(1))], "look") == Some("look")
    ensures Match([Alias("look", Some(1))], "") == None
  {
    assert Lower("l") == "l";
    assert Lower("look") == "look";
    assert Lower("") == "";
    assert QualifiesAsWritten(Alias("look", Some(1)), "l");
    assert !QualifiesAsWritten(Alias("look", Some(1)), "look");
    assert Qualifies(Alias("look", Some(1)), "look");
  }

  /** Matching looks at the text only through its lowered form, so the letter
      case of what is typed never matters. */
  lemma MatchIgnoresCase(keys: seq<Alias>, text: string)
    ensures MatchAsWritten(keys, text) == MatchAsWritten(keys, Lower(text))
    ensures Match(keys, text) == Match(keys, Lower(text))
  {
    LowerIdempotent(text);
    assert forall a :: QualifiesAsWritten(a, text) == QualifiesAsWritten(a, Lower(text));
    assert forall a :: Qualifies(a, text) == Qualifies(a, Lower(text));
    FirstHitSameTests(keys, text, Lower(text));
  }

  /** Two texts that every alias treats alike find the same first alias. */
  lemma {:induction false} FirstHitSameTests(keys: seq<Alias>, t1: string, t2: string)
    requires forall a :: QualifiesAsWritten(a, t1) == QualifiesAsWritten(a, t2)
    requires forall a :: Qualifies(a, t1) == Qualifies(a, t2)
    ensures FirstHit(keys, t1, true) == FirstHit(keys, t2, true)
    ensures FirstHit(keys, t1, false) == FirstHit(keys, t2, false)
  {
    if keys != [] {
      FirstHitSameTests(keys[1..], t1, t2);
    }
  }

  /** The empty text matches the first alias as written, whatever its minimum. */
  lemma EmptyTextMatchesFirst(keys: seq<Alias>)
    requires keys != []
    ensures MatchAsWritten(keys, "") == Some(keys[0].key)
  {
    assert Lower("") == "";
    assert QualifiesAsWritten(keys[0], "");
  }

  /** The display name, typed in full, finds the first alias when that alias has
      no minimum or (with the intended test) a minimum it reaches. */
  lemma NameMatchesItself(keys: seq<Alias>)
    requires keys != []
    ensures keys[0].minimum.None? ==> MatchAsWritten(keys, Name(keys).value) == Name(keys)
    ensures keys[0].minimum.None? || keys[0].minimum.value <= |keys[0].key| ==>
      Match(keys, Name(keys).value) == Name(keys)
  {
    assert Lower(keys[0].key) <= Lower(keys[0].key);
  }

  /** What an overridden `parse` or `func` ended with. */
  datatype Raised = Returned | CommandError(message: string) | OtherError

  /** What an overridden `at_pre_cmd`, awaited inside the `try`, ended with:
      it returned false, it returned true, or it raised. */
  datatype PreResult = Proceed | Stop | PreCommandError(message: string) | PreOtherError

  /** A step of `run`, in the order it happens. */
  datatype Hook = PreCmd | Parse | Func | HandleError(message: string) | LogException | PostCmd

  /** The exception that leaves the `try` block of `run`: the one `at_pre_cmd`
      raised; none when it returned true; else the one `parse` raised, else the
      one `func` raised. */
  function Escaped(pre: PreResult, parsed: Raised, done: Raised): Raised {
    match pre
    case PreCommandError(message) => CommandError(message)
    case PreOtherError => OtherError
    case Stop => Returned
    case Proceed => if parsed != Returned then parsed else done
  }

  /** The handler `run` picks for an escaped exception. */
  function Handled(raised: Raised): seq<Hook> {
    match raised
    case Returned => []
    case CommandError(message) => [HandleError(message)]
    case OtherError => [LogException]
  }

  /** The body of the `try` after `at_pre_cmd`: `parse` only when `at_pre_cmd`
      returned false, and `func` only when `parse` returned too. */
  function Body(pre: PreResult, parsed: Raised): seq<Hook> {
    if pre.Proceed? then [Parse] + (if parsed == Returned then [Func] else []) else []
  }

  /** The hooks `run` runs: `at_pre_cmd`; the rest of the body; the handler of
      what escaped; and always `at_post_cmd` last. */
  function RunHooks(pre: PreResult, parsed: Raised, done: Raised): seq<Hook> {
    [PreCmd] + Body(pre, parsed) + Handled(Escaped(pre, parsed, done)) + [PostCmd]
  }

  /** `at_post_cmd` runs on every path, exactly once and last; `at_pre_cmd`
      runs first. */
  lemma PostCmdAlwaysLast(pre: PreResult, parsed: Raised, done: Raised)
    ensures var h := RunHooks(pre, parsed, done);
      |h| >= 2 && h[0] == PreCmd && h[|h| - 1] == PostCmd
      && forall i :: 0 <= i < |h| - 1 ==> h[i] != PostCmd
  {
    var h := RunHooks(pre, parsed, done);
    assert h == [PreCmd] + Body(pre, parsed) + Handled(Escaped(pre, parsed, done)) + [PostCmd];
    assert PostCmd !in Body(pre, parsed) && PostCmd !in Handled(Escaped(pre, parsed, done));
  }

  /** `parse` runs exactly when `at_pre_cmd` returned false; `func` runs exactly
      when moreover `parse` raised nothing. */
  lemma FuncRunsAfterCleanParse(pre: PreResult, parsed: Raised, done: Raised)
    ensures Parse in RunHooks(pre, parsed, done) <==> pre == Proceed
    ensures Func in RunHooks(pre, parsed, done) <==> pre == Proceed && parsed == Returned
  {
    var body := Body(pre, parsed);
    assert RunHooks(pre, parsed, done) == [PreCmd] + body + Handled(Escaped(pre, parsed, done)) + [PostCmd];
    if pre == Proceed {
      assert body[0] == Parse;
      if parsed == Returned {
        assert body[1] == Func;
      }
    }
  }

  /** A CommandException, whether `at_pre_cmd`, `parse` or `func` raised it,
      reaches `handle_error` with its text; any other exception is only logged;
      nothing is handled when nothing was raised. One raised by `at_pre_cmd`
      is the one handled, and `parse` does not run. */
  lemma ErrorsAreHandled(pre: PreResult, parsed: Raised, done: Raised, message: string)
    ensures HandleError(message) in RunHooks(pre, parsed, done) <==> Escaped(pre, parsed, done) == CommandError(message)
    ensures LogException in RunHooks(pre, parsed, done) <==> Escaped(pre, parsed, done) == OtherError
    ensures pre == PreCommandError(message) ==>
      HandleError(message) in RunHooks(pre, parsed, done) && Parse !in RunHooks(pre, parsed, done)
    ensures pre == PreOtherError ==>
      LogException in RunHooks(pre, parsed, done) && Parse !in RunHooks(pre, parsed, done)
  {
    var body := Body(pre, parsed);
    var handled := Handled(Escaped(pre, parsed, done));
    assert RunHooks(pre, parsed, done) == [PreCmd] + body + handled + [PostCmd];
    assert HandleError(message) !in body && LogException !in body;
    if Escaped(pre, parsed, done) == CommandError(message) {
      assert handled[0] == HandleError(message);
    }
    if Escaped(pre, parsed, done) == OtherError {
      assert handled[0] == LogException;
    }
  }

  lemma HooksAssoc(a: seq<Hook>, b: seq<Hook>, c: seq<Hook>)
    ensures (a + b) + c == a + (b + c)
  {
  }

  /** The texts `handle_error` reports for an escaped exception. */
  function ErrorTexts(raised: Raised): seq<string> {
    if raised.CommandError? then [raised.message] else []
  }

  /** A command of the document-backed engine, built by `execute_cmd` for one
      typed line. `sent` is what it sent to its caller. */
  class Command {
    const cmdstring: string
    const matchKey: string
    const args: string
    var hooks: seq<Hook>
    var sent: seq<string>

    constructor (cmdstring: string, matchKey: string, args: string := "")
      ensures this.cmdstring == cmdstring && this.matchKey == matchKey && this.args == args
      ensures hooks == [] && sent == []
    {
      this.cmdstring := cmdstring;
      this.matchKey := matchKey;
      this.args := args;
      hooks := [];
      sent := [];
    }

    /** `handle_error`: the exception's text goes to the caller. */
    method HandleCommandError(message: string)
      modifies this
      ensures hooks == old(hooks) + [HandleError(message)]
      ensures sent == old(sent) + [message]
    {
      hooks := hooks + [HandleError(message)];
      sent := sent + [message];
    }

    /** `run`: `pre`, `parsed` and `done` are how `at_pre_cmd`, `parse` and
        `func` end. */
    method Run(pre: PreResult, parsed: Raised, done: Raised)
      modifies this
      ensures hooks == old(hooks) + RunHooks(pre, parsed, done)
      ensures sent == old(sent) + ErrorTexts(Escaped(pre, parsed, done))
    {
      hooks := hooks + [PreCmd];
      var raised := Returned;
      match pre {
        case PreCommandError(message) => raised := CommandError(message);
        case PreOtherError => raised := OtherError;
        case Stop =>
        case Proceed =>
          hooks := hooks + [Parse];
          raised := parsed;
          if raised == Returned {
            hooks := hooks + [Func];
            raised := done;
          }
      }
      ghost var body := Body(pre, parsed);
      ghost var expected := [PreCmd] + body + Handled(raised);
      assert raised == Escaped(pre, parsed, done);
      assert hooks == old(hooks) + [PreCmd] + body;
      HandleRaised(raised);
      assert hooks == old(hooks) + expected by {
        HooksAssoc(old(hooks), [PreCmd] + body, Handled(raised));
      }
      hooks := hooks + [PostCmd];
      assert RunHooks(pre, parsed, done) == expected + [PostCmd];
      HooksAssoc(old(hooks), expected, [PostCmd]);
    }

    /** The `except` clauses of `run`: a CommandException goes to `handle_error`,
        any other exception is logged. */
    method HandleRaised(raised: Raised)
      modifies this
      ensures hooks == old(hooks) + Handled(raised)
      ensures sent == old(sent) + ErrorTexts(raised)
    {
      match raised
      case Returned =>
      case CommandError(message) => HandleCommandError(message);
      case OtherError => hooks := hooks + [LogException];
    }
  }

  /** A command of the stack-of-parsers engine: errors become sendables, and
      `at_post_cmd` forwards the collected sendables to the caller's playview. */
  class SendingCommand {
    const cmdstring: string
    const matchKey: string
    const args: string
    const responseId: int
    const hasPlayview: bool
    var hooks: seq<Hook>
    var sendables: seq<string>
    var forwarded: seq<seq<string>>

    constructor (cmdstring: string, matchKey: string, hasPlayview: bool, args: string := "", responseId: int := -1)
      ensures this.cmdstring == cmdstring && this.matchKey == matchKey && this.args == args
      ensures this.responseId == responseId && this.hasPlayview == hasPlayview
      ensures hooks == [] && sendables == [] && forwarded == []
    {
      this.cmdstring := cmdstring;
      this.matchKey := matchKey;
      this.args := args;
      this.responseId := responseId;
      this.hasPlayview := hasPlayview;
      hooks := [];
      sendables := [];
      forwarded := [];
    }

    /** `handle_error`: one sendable holding the text is collected; nothing is
        sent yet. */
    method HandleCommandError(message: string)
      modifies this
      ensures hooks == old(hooks) + [HandleError(message)]
      ensures sendables == old(sendables) + [message]
      ensures forwarded == old(forwarded)
    {
      hooks := hooks + [HandleError(message)];
      sendables := sendables + [message];
    }

    /** `at_post_cmd`: the collected sendables go to the playview, only when
        there are some and the caller has a playview. */
    method AtPostCmd()
      modifies this
      ensures hooks == old(hooks) + [PostCmd] && sendables == old(sendables)
      ensures forwarded == old(forwarded) + (if sendables != [] && hasPlayview then [sendables] else [])
    {
      hooks := hooks + [PostCmd];
      if sendables != [] && hasPlayview {
        forwarded := forwarded + [sendables];
      }
    }

    /** `run`, with the same hook sequence as the other engine. */
    method Run(pre: PreResult, parsed: Raised, done: Raised)
      modifies this
      ensures hooks == old(hooks) + RunHooks(pre, parsed, done)
      ensures sendables == old(sendables) + ErrorTexts(Escaped(pre, parsed, done))
      ensures forwarded == old(forwarded) + (if sendables != [] && hasPlayview then [sendables] else [])
    {
      hooks := hooks + [PreCmd];
      var raised := Returned;
      match pre {
        case PreCommandError(message) => raised := CommandError(message);
        case PreOtherError => raised := OtherError;
        case Stop =>
        case Proceed =>
          hooks := hooks + [Parse];
          raised := parsed;
          if raised == Returned {
            hooks := hooks + [Func];
            raised := done;
          }
      }
      ghost var body := Body(pre, parsed);
      ghost var expected := [PreCmd] + body + Handled(raised);
      assert raised == Escaped(pre, parsed, done);
      assert hooks == old(hooks) + [PreCmd] + body;
      HandleRaised(raised);
      assert hooks == old(hooks) + expected by {
        HooksAssoc(old(hooks), [PreCmd] + body, Handled(raised));
      }
      AtPostCmd();
      assert RunHooks(pre, parsed, done) == expected + [PostCmd];
      HooksAssoc(old(hooks), expected, [PostCmd]);
    }

    /** The `except` clauses of `run`: a CommandException goes to `handle_error`,
        any other exception is logged. */
    method HandleRaised(raised: Raised)
      modifies this
      ensures hooks == old(hooks) + Handled(raised)
      ensures sendables == old(sendables) + ErrorTexts(raised)
      ensures forwarded == old(forwarded)
    {
      match raised
      case Returned =>
      case CommandError(message) => HandleCommandError(message);
      case OtherError => hooks := hooks + [LogException];
    }
  }
}
