/** Game objects of the document-backed engine: the command loop of
    `execute_cmd` (tokenising, the stable priority order, the availability and
    match tests) and the location edge that places an object in a container. */
module Objects {
  import opened Wrappers
  import opened JsonData
  import opened Text
  import opened Documents
  import opened Commands

  /** A command class as `execute_cmd` sees it: its aliases, its priority and
      what its `available(obj)` answers for the object at hand. */
  datatype CommandType = CommandType(keys: seq<Alias>, priority: int, available: bool)

  /** The `match_key` a command is built with: the alias `match` found, or, when
      `match` is called without `await`, the coroutine object itself. */
  datatype MatchKey = Key(alias: string) | Unawaited

  /** One command built and run by `execute_cmd`. */
  datatype Invocation = Invocation(command: CommandType, cmdstring: string, matchKey: MatchKey, args: string)

  /** `execute_cmd`'s reading of a typed line: None when it is blank, else the
      trimmed line, its first word and the rest after the first space. */
  function Tokens(text: string): (r: Option<(string, string, string)>)
    ensures r.None? <==> Strip(text) == []
    ensures r.Some? ==> r.value.0 == Strip(text) && ' ' !in r.value.1
    ensures r.Some? && ' ' in r.value.0 ==> r.value.1 + " " + r.value.2 == r.value.0
    ensures r.Some? && ' ' !in r.value.0 ==> r.value.1 == r.value.0 && r.value.2 == ""
  {
    var line := Strip(text);
    if line == [] then None
    else
      var (word, args) := SplitFirst(line, ' ');
      Some((line, word, args))
  }

  /** Non-increasing priority. */
  predicate ByPriority(s: seq<CommandType>) {
    forall i, j :: 0 <= i < j < |s| ==> s[i].priority >= s[j].priority
  }

  /** The commands of priority `p`, in their order in `s`. */
  function WithPriority(s: seq<CommandType>, p: int): (r: seq<CommandType>)
    ensures |r| <= |s|
  {
    if s == [] then []
    else (if s[0].priority == p then [s[0]] else []) + WithPriority(s[1..], p)
  }

  /** `c` placed in front of the first command of no higher priority. */
  function Insert(c: CommandType, s: seq<CommandType>): seq<CommandType> {
    if s == [] || s[0].priority <= c.priority then [c] + s
    else [s[0]] + Insert(c, s[1..])
  }

  /** `sorted(out, key=lambda c: c.priority, reverse=True)`: Python's sort is
      stable, also with `reverse`, so commands of equal priority keep their
      order. */
  function SortByPriority(s: seq<CommandType>): seq<CommandType> {
    if s == [] then [] else Insert(s[0], SortByPriority(s[1..]))
  }

  /** No command of `s` has priority above `p`. */
  predicate AtMost(s: seq<CommandType>, p: int) {
    forall k :: 0 <= k < |s| ==> s[k].priority <= p
  }

  lemma {:induction false} InsertAtMost(c: CommandType, s: seq<CommandType>, p: int)
    requires AtMost(s, p) && c.priority <= p
    ensures AtMost(Insert(c, s), p)
    decreases |s|
  {
    if s != [] && s[0].priority > c.priority {
      InsertAtMost(c, s[1..], p);
    }
  }

  lemma {:induction false} InsertSorted(c: CommandType, s: seq<CommandType>)
    requires ByPriority(s)
    ensures ByPriority(Insert(c, s))
    decreases |s|
  {
    if s != [] && s[0].priority > c.priority {
      var rest := Insert(c, s[1..]);
      InsertSorted(c, s[1..]);
      InsertAtMost(c, s[1..], s[0].priority);
      assert Insert(c, s) == [s[0]] + rest;
    }
  }

  lemma {:induction false} InsertPermutes(c: CommandType, s: seq<CommandType>)
    ensures multiset(Insert(c, s)) == multiset(s) + multiset{c}
    decreases |s|
  {
    if s != [] && s[0].priority > c.priority {
      InsertPermutes(c, s[1..]);
      assert s == [s[0]] + s[1..];
    }
  }

  lemma {:induction false} InsertStable(c: CommandType, s: seq<CommandType>, p: int)
    ensures WithPriority(Insert(c, s), p) == (if c.priority == p then [c] else []) + WithPriority(s, p)
    decreases |s|
  {
    if s == [] || s[0].priority <= c.priority {
      assert Insert(c, s)[1..] == s;
    } else {
      InsertStable(c, s[1..], p);
      assert Insert(c, s)[1..] == Insert(c, s[1..]);
    }
  }

  /** The sort orders by non-increasing priority. */
  lemma {:induction false} SortedByPriority(s: seq<CommandType>)
    ensures ByPriority(SortByPriority(s))
  {
    if s != [] {
      SortedByPriority(s[1..]);
      InsertSorted(s[0], SortByPriority(s[1..]));
    }
  }

  /** The sort is a permutation. */
  lemma {:induction false} SortPermutes(s: seq<CommandType>)
    ensures multiset(SortByPriority(s)) == multiset(s)
  {
    if s != [] {
      SortPermutes(s[1..]);
      InsertPermutes(s[0], SortByPriority(s[1..]));
      assert s == [s[0]] + s[1..];
    }
  }

  /** The sort is stable: the commands of each priority keep their relative
      order. */
  lemma {:induction false} SortIsStable(s: seq<CommandType>, p: int)
    ensures WithPriority(SortByPriority(s), p) == WithPriority(s, p)
  {
    if s != [] {
      SortIsStable(s[1..], p);
      InsertStable(s[0], SortByPriority(s[1..]), p);
    }
  }

  /** The command `execute_cmd` builds for `c`, if any: available and matching
      the first word. */
  function Picked(line: string, word: string, args: string, c: CommandType): seq<Invocation> {
    if c.available && Match(c.keys, word).Some? then [Invocation(c, line, Key(Match(c.keys, word).value), args)]
    else []
  }

  /** The commands built for `cs`, in order; no command stops the loop. */
  function PickedAll(line: string, word: string, args: string, cs: seq<CommandType>): (r: seq<Invocation>)
    ensures |r| <= |cs|
  {
    if cs == [] then []
    else PickedAll(line, word, args, cs[..|cs| - 1]) + Picked(line, word, args, cs[|cs| - 1])
  }

  /** One more command of the loop adds what that command builds. */
  lemma PickedAllStep(line: string, word: string, args: string, cs: seq<CommandType>, i: nat)
    requires i < |cs|
    ensures PickedAll(line, word, args, cs[..i + 1]) == PickedAll(line, word, args, cs[..i]) + Picked(line, word, args, cs[i])
  {
    assert cs[..i + 1][..i] == cs[..i];
  }

  lemma InvocationsAssoc(a: seq<Invocation>, b: seq<Invocation>, c: seq<Invocation>)
    ensures (a + b) + c == a + (b + c)
  {
  }

  /** `inv` is a command of `cs` built for the line: available, matching the
      first word with the key it was given, holding the trimmed line and the
      arguments. */
  predicate BuiltFrom(inv: Invocation, cs: seq<CommandType>, line: string, word: string, args: string) {
    inv.command in cs && inv.command.available && Match(inv.command.keys, word).Some?
    && inv.matchKey == Key(Match(inv.command.keys, word).value)
    && inv.cmdstring == line && inv.args == args
  }

  /** Every command built is one of `cs`, available and matching. */
  lemma {:induction false} PickedAllSound(line: string, word: string, args: string, cs: seq<CommandType>)
    ensures forall k :: 0 <= k < |PickedAll(line, word, args, cs)| ==> BuiltFrom(PickedAll(line, word, args, cs)[k], cs, line, word, args)
  {
    if cs != [] {
      var init := cs[..|cs| - 1];
      var last := cs[|cs| - 1];
      PickedAllSound(line, word, args, init);
      var r0 := PickedAll(line, word, args, init);
      var r := PickedAll(line, word, args, cs);
      forall k | 0 <= k < |r|
        ensures BuiltFrom(r[k], cs, line, word, args)
      {
        if k < |r0| {
          assert r[k] == r0[k];
          assert BuiltFrom(r0[k], init, line, word, args);
          var i :| 0 <= i < |init| && init[i] == r0[k].command;
          assert cs[i] == init[i];
        } else {
          assert r[k] == Picked(line, word, args, last)[0];
          assert r[k].command == cs[|cs| - 1];
        }
      }
    }
  }

  /** Every available command of `cs` that matches the first word is built. */
  lemma {:induction false} PickedAllComplete(line: string, word: string, args: string, cs: seq<CommandType>, c: CommandType)
    requires c in cs && c.available && Match(c.keys, word).Some?
    ensures exists k :: 0 <= k < |PickedAll(line, word, args, cs)| && PickedAll(line, word, args, cs)[k].command == c
  {
    var init := cs[..|cs| - 1];
    var r0 := PickedAll(line, word, args, init);
    var r := PickedAll(line, word, args, cs);
    assert r == r0 + Picked(line, word, args, cs[|cs| - 1]);
    if c == cs[|cs| - 1] {
      assert r[|r0|].command == c;
    } else {
      var i :| 0 <= i < |cs| && cs[i] == c;
      assert init[i] == c;
      PickedAllComplete(line, word, args, init, c);
      var k :| 0 <= k < |r0| && r0[k].command == c;
      assert r[k] == r0[k];
    }
  }

  /** The commands of `r` in non-increasing priority. */
  predicate RunsByPriority(r: seq<Invocation>) {
    forall i, j :: 0 <= i < j < |r| ==> r[i].command.priority >= r[j].command.priority
  }

  /** The commands built follow the order of `cs`: when `cs` is sorted, one of
      higher priority never runs after one of lower priority. */
  lemma {:induction false} PickedAllKeepsOrder(line: string, word: string, args: string, cs: seq<CommandType>)
    requires ByPriority(cs)
    ensures RunsByPriority(PickedAll(line, word, args, cs))
  {
    if cs != [] {
      var init := cs[..|cs| - 1];
      var last := cs[|cs| - 1];
      assert ByPriority(init);
      PickedAllKeepsOrder(line, word, args, init);
      PickedAllSound(line, word, args, init);
      var r := PickedAll(line, word, args, cs);
      var r0 := PickedAll(line, word, args, init);
      assert r == r0 + Picked(line, word, args, last);
      forall i, j | 0 <= i < j < |r|
        ensures r[i].command.priority >= r[j].command.priority
      {
        if j >= |r0| {
          assert r[j].command == last;
          assert r[i] == r0[i];
          assert BuiltFrom(r0[i], init, line, word, args);
          var k :| 0 <= k < |init| && init[k] == r0[i].command;
          assert cs[k] == init[k];
        } else {
          assert r[i] == r0[i] && r[j] == r0[j];
        }
      }
    }
  }

  /** What `execute_cmd(text)` runs with `match` awaited: nothing for a blank
      line; else every available command, in priority order, whose aliases
      match the first word. */
  function Invocations(text: string, commands: seq<CommandType>): seq<Invocation> {
    match Tokens(text)
    case None => []
    case Some((line, word, args)) => PickedAll(line, word, args, SortByPriority(commands))
  }

  /** The as-written loop: `cmd.match(...)` is never awaited, so the coroutine
      it returns is truthy and every available command is built. */
  function PickedAllAsWritten(line: string, args: string, cs: seq<CommandType>): (r: seq<Invocation>)
    ensures |r| <= |cs|
  {
    if cs == [] then []
    else
      var last := cs[|cs| - 1];
      PickedAllAsWritten(line, args, cs[..|cs| - 1]) + (if last.available then [Invocation(last, line, Unawaited, args)] else [])
  }

  function InvocationsAsWritten(text: string, commands: seq<CommandType>): seq<Invocation> {
    match Tokens(text)
    case None => []
    case Some((line, word, args)) => PickedAllAsWritten(line, args, SortByPriority(commands))
  }

  /** A blank line runs nothing, both as written and corrected. */
  lemma BlankLineRunsNothing(text: string, commands: seq<CommandType>)
    requires forall i :: 0 <= i < |text| ==> IsSpace(text[i])
    ensures Invocations(text, commands) == [] && InvocationsAsWritten(text, commands) == []
  {
    StripEmptyIffBlank(text);
  }

  /** Each command that runs is one of the object's commands, available, and
      matching the first word with the key it is given; it gets the trimmed
      line and the arguments after the first space. */
  lemma InvocationsSound(text: string, commands: seq<CommandType>)
    requires Tokens(text).Some?
    ensures forall k :: 0 <= k < |Invocations(text, commands)| ==>
      BuiltFrom(Invocations(text, commands)[k], commands, Tokens(text).value.0, Tokens(text).value.1, Tokens(text).value.2)
  {
    var (line, word, args) := Tokens(text).value;
    var sorted := SortByPriority(commands);
    SortPermutes(commands);
    PickedAllSound(line, word, args, sorted);
    var r := Invocations(text, commands);
    assert r == PickedAll(line, word, args, sorted);
    forall k | 0 <= k < |r|
      ensures BuiltFrom(r[k], commands, line, word, args)
    {
      assert BuiltFrom(r[k], sorted, line, word, args);
      assert r[k].command in multiset(sorted);
    }
  }

  /** Every available command that matches the first word runs: there is no
      break after the first. */
  lemma InvocationsComplete(text: string, commands: seq<CommandType>, c: CommandType)
    requires Tokens(text).Some?
    requires c in commands && c.available && Match(c.keys, Tokens(text).value.1).Some?
    ensures exists k :: 0 <= k < |Invocations(text, commands)| && Invocations(text, commands)[k].command == c
  {
    var (line, word, args) := Tokens(text).value;
    var sorted := SortByPriority(commands);
    SortPermutes(commands);
    assert c in multiset(commands);
    assert Invocations(text, commands) == PickedAll(line, word, args, sorted);
    PickedAllComplete(line, word, args, sorted, c);
  }

  /** The commands run in non-increasing priority. */
  lemma InvocationsByPriority(text: string, commands: seq<CommandType>)
    ensures RunsByPriority(Invocations(text, commands))
  {
    if Tokens(text).Some? {
      var (line, word, args) := Tokens(text).value;
      SortedByPriority(commands);
      PickedAllKeepsOrder(line, word, args, SortByPriority(commands));
    }
  }

  /** "xyzzy" is a single word. */
  lemma XyzzyIsOneWord()
    ensures Tokens("xyzzy") == Some(("xyzzy", "xyzzy", ""))
  {
    StripUnchangedIff("xyzzy");
    assert ' ' !in "xyzzy";
  }

  /** No alias of `look` matches "xyzzy". */
  lemma XyzzyIsNotLook()
    ensures Match([Alias("look", None)], "xyzzy") == None
  {
    assert Lower("xyzzy")[0] == 'x';
    assert Lower("look")[0] == 'l';
    assert !Qualifies(Alias("look", None), "xyzzy");
  }

  /** As written, a command whose aliases do not match still runs: the line
      "xyzzy" runs `look`, which the corrected loop does not. */
  lemma UnawaitedMatchRunsEverything()
    ensures var look := CommandType([Alias("look", None)], 0, true);
      InvocationsAsWritten("xyzzy", [look]) == [Invocation(look, "xyzzy", Unawaited, "")]
      && Invocations("xyzzy", [look]) == []
  {
    var look := CommandType([Alias("look", None)], 0, true);
    XyzzyIsOneWord();
    XyzzyIsNotLook();
    assert SortByPriority([look]) == [look];
    assert [look][..0] == [];
  }

  /** The fields of a location edge: from the object to the container, tagged
      with `proxy`, with the caller's keyword arguments merged over them. */
  function EdgeData(obj: string, container: string, proxy: string, extra: Doc): (d: Doc)
    ensures d.Keys == {"_from", "_to", "proxy"} + extra.Keys
    ensures forall f :: f in extra ==> d[f] == extra[f]
    ensures "_from" !in extra ==> d["_from"] == JStr(obj)
    ensures "_to" !in extra ==> d["_to"] == JStr(container)
    ensures "proxy" !in extra ==> d["proxy"] == JStr(proxy)
  {
    map["_from" := JStr(obj), "_to" := JStr(container), "proxy" := JStr(proxy)] + extra
  }

  /** The tag the location collection writes over the caller's. */
  const LOCATION_TAG: string := "location"
  const INVENTORY_TAG: string := "inventory_location"
  const EQUIPMENT_TAG: string := "equipment_location"

  /** The location edge an object's `location` field names, if any. */
  function LocationOf(docs: Docs, obj: string): (r: Option<string>)
    ensures r.Some? <==> FieldOf(docs, obj, "location", JNull).JStr? && FieldOf(docs, obj, "location", JNull).s != ""
  {
    var field := FieldOf(docs, obj, "location", JNull);
    if field.JStr? && field.s != "" then Some(field.s) else None
  }

  /** A location handle: the edge's id and the tag its proxy carries in memory. */
  datatype LocHandle = LocHandle(id: string, tag: string)

  /** An object of the world, able to hold others and to run commands. */
  class Thing {
    const id: string
    const store: DocumentStore
    var ran: seq<Invocation>

    constructor (id: string, store: DocumentStore)
      ensures this.id == id && this.store == store && ran == []
    {
      this.id := id;
      this.store := store;
      ran := [];
    }

    /** `execute_cmd(text)`, with `commands` the object's `all_commands()`. */
    method ExecuteCmd(text: string, commands: seq<CommandType>)
      modifies this
      ensures ran == old(ran) + Invocations(text, commands)
    {
      var tokens := Tokens(text);
      if tokens.None? {
        return;
      }
      RunMatching(tokens.value.0, tokens.value.1, tokens.value.2, SortByPriority(commands));
    }

    /** The loop over `available_commands()`: each available command whose
        aliases match `word` is built and run. */
    method RunMatching(line: string, word: string, args: string, sorted: seq<CommandType>)
      modifies this
      ensures ran == old(ran) + PickedAll(line, word, args, sorted)
    {
      var i := 0;
      while i < |sorted|
        invariant 0 <= i <= |sorted|
        invariant ran == old(ran) + PickedAll(line, word, args, sorted[..i])
      {
        PickedAllStep(line, word, args, sorted, i);
        InvocationsAssoc(old(ran), PickedAll(line, word, args, sorted[..i]), Picked(line, word, args, sorted[i]));
        TryCommand(line, word, args, sorted[i]);
        i := i + 1;
      }
      assert sorted[..|sorted|] == sorted;
    }

    /** One step of that loop: `cmd` is built and run when it is available and
        one of its aliases matches `word`, with the alias found as its key. */
    method TryCommand(line: string, word: string, args: string, cmd: CommandType)
      modifies this
      ensures ran == old(ran) + Picked(line, word, args, cmd)
    {
      if cmd.available {
        var res := Match(cmd.keys, word);
        if res.Some? {
          ran := ran + [Invocation(cmd, line, Key(res.value), args)];
        }
      }
    }

    /** `execute_cmd(text)` as written, `match` not awaited. */
    method ExecuteCmdAsWritten(text: string, commands: seq<CommandType>)
      modifies this
      ensures ran == old(ran) + InvocationsAsWritten(text, commands)
    {
      var tokens := Tokens(text);
      if tokens.None? {
        return;
      }
      RunAvailableAsWritten(tokens.value.0, tokens.value.2, SortByPriority(commands));
    }

    /** The as-written loop: every available command is built. */
    method RunAvailableAsWritten(line: string, args: string, sorted: seq<CommandType>)
      modifies this
      ensures ran == old(ran) + PickedAllAsWritten(line, args, sorted)
    {
      var i := 0;
      while i < |sorted|
        invariant 0 <= i <= |sorted|
        invariant ran == old(ran) + PickedAllAsWritten(line, args, sorted[..i])
      {
        var cmd := sorted[i];
        assert sorted[..i + 1] == sorted[..i] + [cmd];
        if cmd.available {
          ran := ran + [Invocation(cmd, line, Unawaited, args)];
        }
        i := i + 1;
      }
      assert sorted[..|sorted|] == sorted;
    }

    /** `add_object_location(obj, proxy, **extra)`: an existing edge is
        rewritten with the new data and re-tagged in memory only; otherwise a
        new edge `newId` is created, tagged by the location collection, and
        recorded on the object. */
    method AddObjectLocation(obj: string, proxy: string, extra: Doc, newId: string) returns (loc: LocHandle)
      modifies store
      ensures old(LocationOf(store.docs, obj)).Some? ==> (
        loc == LocHandle(old(LocationOf(store.docs, obj)).value, proxy)
        && store.docs == old(store.docs)[loc.id := EdgeData(obj, id, proxy, extra)])
      ensures old(LocationOf(store.docs, obj)).None? ==> (
        loc == LocHandle(newId, LOCATION_TAG)
        && store.docs == WithField(old(store.docs)[newId := EdgeData(obj, id, proxy, extra)["proxy" := JStr(LOCATION_TAG)]],
                                   obj, "location", JStr(newId)))
    {
      var data := EdgeData(obj, id, proxy, extra);
      var found := LocationOf(store.docs, obj);
      if found.Some? {
        store.docs := store.docs[found.value := data];
        return LocHandle(found.value, proxy);
      }
      store.docs := store.docs[newId := data["proxy" := JStr(LOCATION_TAG)]];
      store.SetField(obj, "location", JStr(newId));
      loc := LocHandle(newId, LOCATION_TAG);
    }

    /** `add_object_location` as written: the existing edge's data is put on
        the object's own document. */
    method AddObjectLocationAsWritten(obj: string, proxy: string, extra: Doc, newId: string) returns (loc: LocHandle)
      modifies store
      ensures old(LocationOf(store.docs, obj)).Some? ==> (
        loc == LocHandle(old(LocationOf(store.docs, obj)).value, proxy)
        && store.docs == old(store.docs)[obj := EdgeData(obj, id, proxy, extra)])
      ensures old(LocationOf(store.docs, obj)).None? ==> (
        loc == LocHandle(newId, LOCATION_TAG)
        && store.docs == WithField(old(store.docs)[newId := EdgeData(obj, id, proxy, extra)["proxy" := JStr(LOCATION_TAG)]],
                                   obj, "location", JStr(newId)))
    {
      var data := EdgeData(obj, id, proxy, extra);
      var found := LocationOf(store.docs, obj);
      if found.Some? {
        store.docs := store.docs[obj := data];
        return LocHandle(found.value, proxy);
      }
      store.docs := store.docs[newId := data["proxy" := JStr(LOCATION_TAG)]];
      store.SetField(obj, "location", JStr(newId));
      loc := LocHandle(newId, LOCATION_TAG);
    }

    /** `add_to_inventory(obj, **extra)`. */
    method AddToInventory(obj: string, extra: Doc, newId: string) returns (loc: LocHandle)
      modifies store
      ensures old(LocationOf(store.docs, obj)).Some? ==> loc.tag == INVENTORY_TAG
      ensures store.docs == Placed(old(store.docs), obj, id, INVENTORY_TAG, extra, newId)
    {
      loc := AddObjectLocation(obj, INVENTORY_TAG, extra, newId);
    }

    /** `add_to_equipment(obj, **extra)`. */
    method AddToEquipment(obj: string, extra: Doc, newId: string) returns (loc: LocHandle)
      modifies store
      ensures old(LocationOf(store.docs, obj)).Some? ==> loc.tag == EQUIPMENT_TAG
      ensures store.docs == Placed(old(store.docs), obj, id, EQUIPMENT_TAG, extra, newId)
    {
      loc := AddObjectLocation(obj, EQUIPMENT_TAG, extra, newId);
    }

    /** `remove_from_location()` on this object: the edge is deleted and the
        field cleared; without an edge nothing happens. */
    method RemoveFromLocation()
      modifies store
      ensures old(LocationOf(store.docs, id)).None? ==> store.docs == old(store.docs)
      ensures old(LocationOf(store.docs, id)).Some? ==>
        store.docs == WithField(old(store.docs) - {old(LocationOf(store.docs, id)).value}, id, "location", JNull)
    {
      var found := LocationOf(store.docs, id);
      if found.Some? {
        store.docs := store.docs - {found.value};
        store.SetField(id, "location", JNull);
      }
    }
  }

  /** The database after the container `container` places `obj` with tag
      `proxy`, `add_object_location` corrected. */
  function Placed(docs: Docs, obj: string, container: string, proxy: string, extra: Doc, newId: string): Docs {
    match LocationOf(docs, obj)
    case Some(loc) => docs[loc := EdgeData(obj, container, proxy, extra)]
    case None => WithField(docs[newId := EdgeData(obj, container, proxy, extra)["proxy" := JStr(LOCATION_TAG)]],
                           obj, "location", JStr(newId))
  }

  /** After placing, the object names an edge from it to the container; an
      existing edge keeps its id and carries the requested tag, a new one is
      tagged by the collection. */
  lemma PlacedIsLinked(docs: Docs, obj: string, container: string, proxy: string, extra: Doc, newId: string)
    requires newId != "" && newId != obj
    requires LocationOf(docs, obj).Some? ==> LocationOf(docs, obj).value != obj
    requires "_from" !in extra && "_to" !in extra && "proxy" !in extra
    ensures var after := Placed(docs, obj, container, proxy, extra, newId);
      var loc := if LocationOf(docs, obj).Some? then LocationOf(docs, obj).value else newId;
      LocationOf(after, obj) == Some(loc)
      && loc in after && after[loc]["_from"] == JStr(obj) && after[loc]["_to"] == JStr(container)
      && after[loc]["proxy"] == JStr(if LocationOf(docs, obj).Some? then proxy else LOCATION_TAG)
  {
    var after := Placed(docs, obj, container, proxy, extra, newId);
    if LocationOf(docs, obj).None? {
      var created := docs[newId := EdgeData(obj, container, proxy, extra)["proxy" := JStr(LOCATION_TAG)]];
      WithFieldReads(created, obj, "location", JStr(newId), obj, "location", JNull);
      assert after[newId] == created[newId];
    } else {
      var loc := LocationOf(docs, obj).value;
      assert FieldOf(after, obj, "location", JNull) == FieldOf(docs, obj, "location", JNull);
    }
  }

  /** As written, re-placing an object that already has an edge overwrites the
      object's own document with the edge data, so the object loses its
      `location` field (and every other field); the edge is left unchanged. */
  lemma AsWrittenLosesTheLink(docs: Docs, obj: string, container: string, proxy: string, extra: Doc)
    requires LocationOf(docs, obj).Some? && LocationOf(docs, obj).value != obj
    requires "location" !in extra
    ensures var after := docs[obj := EdgeData(obj, container, proxy, extra)];
      LocationOf(after, obj).None?
      && (LocationOf(docs, obj).value in docs ==> after[LocationOf(docs, obj).value] == docs[LocationOf(docs, obj).value])
  {
    var after := docs[obj := EdgeData(obj, container, proxy, extra)];
    assert "location" !in after[obj];
  }
}
