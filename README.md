# A verified model of a MUD engine's session, login, command and store logic

This project models the core of a multi-user text game server. The repository has two engines:

- **bartholos**: each connection holds a stack of parsers.
- **origin**: sessions, accounts and objects are documents in a document database, read and written over HTTP.

The model covers the sequential logic both engines rest on:

- **Routing a typed line.** The stack engine's priority frames, the developer console, `QUIT`, the top frame and the playview (`GameSessions`). The document engine's stored parser name, playview and "Oops" fallback (`OriginEvents`, `OriginParser`, `OriginSessions`).
- **The login conversation.** Five states, as a pure transition function (`LoginMachine`) and as the two parser classes that carry it out (`Screens.LoginParser`, `OriginLogin.LoginParser`). The main menu is `Screens.MainMenuParser`.
- **Commands.** Alias matching with an optional minimum, the hook order of `run`, and the error paths (`Commands`). The command loop of `execute_cmd` and the location edges of objects (`Objects`).
- **The database client.** The bearer-token guard, cursor batches, proxy-tag lookup, and collection and document creation (`Database`, `Documents`). The per-session input queue and the two drain tasks, which give first-in first-out delivery (`Tasks`).
- **Keyed stores.** The attribute table (`Attributes`), the account registry (`OriginUsers`), the playview join hooks (`Playviews`) and zone neighbours (`Zones`).
- **Small parsers.** `dbref` (`Dbrefs`), the search-token classifier, proxy paths and the proxy-class fallback (`AutoProxy`), and the Python string operations they use (`Text`, `JsonData`).

How the model represents the system:

- Objects whose fields the source updates in place are classes: sessions, frames, parsers, the document store and attribute handlers. Their methods are proved against specification functions.
- The decision logic is functions, with lemmas about them.
- The database is a map from document id to a map of fields.
- A collection's scan order is an explicit list of ids.
- HTTP replies are a script the client consumes in order. Requests are appended to a log.
- Messages to a client are appended to an outgoing list.
- Password hashing and checking, `can_detect`, `can_play`, `partial_match`, class loading and the clock are parameters of the operations that use them.
- Only the top frame of the stack is checked for priority (bartholos/server/game_session.py:50-54).
- `create_document` replaces the caller's proxy tag with the collection's (origin/db/core.py:203-204).
- An error while draining a queue stops the rest of the run, because nothing catches it (origin/tasks/session.py:16-19, origin/tasks/simulation.py:15-17). This includes an event handler or `execute_cmd` that raises; which executions raise is a parameter (`raises`). The queues are already emptied or shifted by then, so the events after the failing one are lost.

## Model

Members are named by module, and by class when they belong to one. The source column cites the lines each member models.

| member | source | states |
|---|---|---|
| Database.NewProxy | origin/db/core.py:216-217 | a handle keeps the record's `_id` (None when absent) and its proxy tag |
| Database.GetProxy | origin/db/core.py:99-108 | succeeds iff the record's "proxy" is a non-empty registered tag, giving the handle of that type; a missing or empty tag is "no proxy set", an unregistered one "non-existent autoproxy" |
| Database.Batches | origin/db/core.py:26-35 | a cursor run uses up at most the replies it is given, one per fetch when it ends without an exception |
| Database.ChainYieldsAll | origin/db/core.py:26-35 | when every fetch answers 200 with the next batch of a chain, the cursor yields the concatenation of every batch's results, in order, after one fetch per batch past the first |
| Database.DatabaseManager.constructor | origin/db/core.py:45-54 | a new client has no token and has sent nothing |
| Database.DatabaseManager.Connect | origin/db/core.py:56-65 | the credentials are posted once through the server client, without a token (`logins`); a non-200 login raises and keeps the old token; a 200 login stores the reply's "jwt", and with a token exactly one bearer GET of the current database follows; it succeeds exactly when the login answers 200, the stored token is non-empty and the probe answers 200; every database-client request carries a bearer header |
| Database.DatabaseManager.Request | origin/db/core.py:67-82 | without a token it raises and sends nothing; with one it sends exactly one request carrying "Bearer <token>" and returns the next reply; the token never changes |
| Database.DatabaseManager.GetDocument | origin/db/core.py:110-119 | sends one GET of "/_api/document/<id>"; a non-200 reply raises "Cannot retrieve Document"; otherwise the raw record, or its handle (or the proxy error) when a proxy is asked for |
| Database.DatabaseManager.Query | origin/db/core.py:121-132 | posts the query body first; a non-201 reply raises "Bad Query"; otherwise every result of every batch in order, one cursor fetch per later batch, then one DELETE of the cursor |
| Database.QueryBody | origin/db/core.py:122-125 | the body holds the query, and "bindVars" exactly when bindings are given, and nothing else |
| Database.Cursor.constructor | origin/db/core.py:7-10 | the cursor's id is the batch's "id" and its data the batch |
| Database.Cursor.Count | origin/db/core.py:12-13 | the length of the current batch's "result", 0 when it has none; undefined once a fetch has failed |
| Database.Cursor.FetchNextBatch | origin/db/core.py:15-24 | without a truthy "nextBatchId" nothing is sent and the answer is falsy; otherwise one POST to "/_api/cursor/<id>"; 200 replaces the batch and answers true, any other status drops the data and answers false |
| Database.Cursor.Results | origin/db/core.py:26-35 | the items, the exception, the replies used and the fetches sent are exactly those of the cursor run `Batches` over the current batch |
| Database.Cursor.Close | origin/db/core.py:37-38 | sends one DELETE of "/_api/cursor/<id>" |
| Database.Prepared | origin/db/core.py:200-204 | the record sent has "_key" = str(key) when a key is given and the collection's proxy tag over any tag of the caller's; every other field is the caller's |
| Database.Schema | origin/db/core.py:147-149 | the schema names the collection and has "type" 3 exactly for an edge collection |
| Database.CollectionManager.constructor | origin/db/core.py:139-164 | a manager keeps its collection name, edge flag, proxy tag and client |
| Database.CollectionManager.CreateCollection | origin/db/core.py:144-154 | probes "/_api/collection/<name>"; only a 404 leads to posting the schema, and then a non-200 reply raises "Could not create collection" |
| Database.CollectionManager.CreateDocument | origin/db/core.py:200-212 | PUTs the prepared record to "/_api/document/user"; a status other than 201 or 202 raises; the reply is returned raw without a proxy tag, else as a handle |
| Documents.WithField | origin/db/sessions.py:25-27 | after `set_field` the document exists and `get_field` reads the value written |
| Documents.WithFieldReads | origin/db/sessions.py:25-27 | `set_field` changes what `get_field` reads for that field of that document and for nothing else |
| Documents.DocumentStore.SetField | origin/db/objects.py:73 | the store becomes the old store with that one field written |
| Attributes.Find | origin/db/attributes.py:6 | `filter(...).first()`: the index of the first row of the (category, name) pair, none iff no row holds it |
| Attributes.Cleared | origin/db/attributes.py:21-22 | clearing never adds rows |
| Attributes.FindSnoc | origin/db/attributes.py:15 | a row created at the end is found only when no earlier row holds its pair |
| Attributes.AddedLookup | origin/db/attributes.py:10-15 | after `add`, `get` answers the new value for the pair and the old answer for every other pair |
| Attributes.AddedKeepsUnique | origin/db/attributes.py:10-15 | `add` keeps at most one row per pair |
| Attributes.RemovedKeepsUnique | origin/db/attributes.py:17-19 | `remove` keeps one row per pair and leaves the table alone when the pair is absent |
| Attributes.RemovedLookup | origin/db/attributes.py:17-19 | after `remove`, `get` no longer finds the pair and answers as before for every other pair |
| Attributes.ClearedLookup | origin/db/attributes.py:21-22 | after `clear(category)` nothing of that category is found and every other category reads as before |
| Attributes.ClearedKeepsUnique | origin/db/attributes.py:21-22 | `clear` keeps one row per pair and only keeps rows that were there |
| Attributes.CategoryMapIsLookup | origin/db/attributes.py:24-28 | `all(category)` holds exactly the names `get` finds in the category, each with the value `get` answers |
| Attributes.AttributeHandler.constructor | origin/db/attributes.py:2-3 | a handler over the object's rows |
| Attributes.AttributeHandler.Get | origin/db/attributes.py:5-8 | the first matching row's value, else the default |
| Attributes.AttributeHandler.Add | origin/db/attributes.py:10-15 | the table becomes `Added` of the old table and keeps one row per pair |
| Attributes.AttributeHandler.Remove | origin/db/attributes.py:17-19 | the table becomes `Removed` of the old table and keeps one row per pair |
| Attributes.AttributeHandler.Clear | origin/db/attributes.py:21-22 | the table becomes `Cleared` of the old table and keeps one row per pair |
| Attributes.AttributeHandler.All | origin/db/attributes.py:24-28 | the loop builds `CategoryMap` of the table, a later row of a name overwriting an earlier one |
| Playviews.FirstJoinRunsAll | origin/db/playviews.py:10-27 | the first session runs initialisation, then the start: record login, unstow, announce, in that order |
| Playviews.JoinHooksChoice | origin/db/playviews.py:10-16 | initialisation runs iff no session was attached; the start runs iff the joining session is then the only one |
| Playviews.SecondSessionRunsNothing | origin/db/playviews.py:10-16 | a session joining while another is attached runs no hook |
| Playviews.RejoinRestarts | origin/db/playviews.py:10-16 | the sole attached session joining again runs the start but not the initialisation |
| Playviews.Playview.constructor | origin/db/playviews.py:9 | a playview starts with no session and no hook run |
| Playviews.Playview.JoinSession | origin/db/playviews.py:10-16 | the session is added and exactly the hooks `JoinHooks` names run, in order |
| Playviews.Playview.AtStartPlayview | origin/db/playviews.py:21-27 | the start runs the three login hooks in their fixed order and changes no session |
| Dbrefs.Positive | bartholos/utils/utils.py:25-26 | a string with its leading "#" stripped is read only when all digits and positive |
| Dbrefs.StringDbrefIsPositive | bartholos/utils/utils.py:17-26 | a string reads only as a positive number, and requiring the hash never accepts something the plain form refuses, nor reads it differently |
| Dbrefs.DbrefWithoutHash | bartholos/utils/utils.py:24-28 | without the hash required, an integer passes whatever its sign, any other non-string is refused, and a string reads as its "#"-prefixed form does with the hash required |
| Dbrefs.DbrefRoundTrip | bartholos/utils/utils.py:17-26 | "#N", "##…#N" and "N" read back as N for every positive N |
| Dbrefs.HashesStrip | bartholos/utils/utils.py:19 | `lstrip("#")` removes exactly the run of leading "#" |
| Dbrefs.RefusedWithHash | bartholos/utils/utils.py:17-23 | "#0", "#", "12" and "#-3" are refused when the hash is required |
| Dbrefs.AcceptedExamples | bartholos/utils/utils.py:17-28 | "##5" reads as 5; the integer 0 passes when the hash is not required; no integer passes when it is |
| Zones.NeighborsMembers | bartholos/db/zones/zones.py:11-12 | the neighbours are exactly the zone's other objects, and fewer than the contents when the object is among them |
| Zones.NeighborsAppend | bartholos/db/zones/zones.py:11-12 | the neighbours keep the contents' order |
| Zones.NeighborsOfOutsider | bartholos/db/zones/zones.py:11-12 | an object outside the zone has the whole contents as neighbours |
| Zones.DetectedMembers | bartholos/db/zones/zones.py:19 | the detected objects are exactly those of the list the viewer detects |
| Zones.DetectedAppend | bartholos/db/zones/zones.py:19 | detection keeps the neighbours' order |
| Zones.DetectAll | bartholos/db/zones/zones.py:19 | a viewer detecting every neighbour sees all of them, in order |
| Zones.VisibleNeighborsMembers | bartholos/db/zones/zones.py:14-19 | a visible neighbour is another object of the zone the viewer detects, and every such object is visible; the viewer never sees itself |
| Zones.Playview.constructor | bartholos/db/zones/zones.py:23 | a playview has sent nothing yet |
| Zones.Playview.Send | bartholos/db/zones/zones.py:36 | one batch is appended to what was sent |
| Zones.Thing.constructor | bartholos/db/zones/zones.py:54-60 | an object with its zone and no save |
| Zones.Zone.constructor | bartholos/db/zones/zones.py:8 | a zone with its id |
| Zones.Zone.Batch | bartholos/db/zones/zones.py:26-33 | the batch is the header's output, then the description's, then the contents' |
| Zones.Zone.RenderLocation | bartholos/db/zones/zones.py:21-36 | without a playview nothing changes; with one, the batch is sent once exactly when it is non-empty |
| Zones.Zone.AddObj | bartholos/db/zones/zones.py:58-60 | the object is in this zone and one save writes only "in_zone" |
| Zones.Zone.RemoveObj | bartholos/db/zones/zones.py:54-56 | the object is in no zone and one save writes only "in_zone" |
| Zones.BatchEmptyIff | bartholos/db/zones/zones.py:35-36 | helper for `RenderLocation`'s `if batch` test: the batch is empty iff every renderer added nothing (so the zone's own renderers, which add nothing, send nothing) |
| AutoProxy.PyDrop | bartholos/db/autoproxy/managers.py:161 | Python's `key[n:]`: the text after the first n characters, empty past the end |
| AutoProxy.AttrKeyPrefixes | bartholos/db/autoproxy/managers.py:160-175 | an attribute key holds no ":", is never taken for a tag, and starts with "attr==" or "attr!=" according to its operator |
| AutoProxy.AttrRestSplit | bartholos/db/autoproxy/managers.py:167-170 | the rest of an attribute token splits at its first ":" into value and category, the category empty without one |
| AutoProxy.AttrClassified | bartholos/db/autoproxy/managers.py:155-176 | an attribute token lands in the list of its operator, with its value and category, its name being what the key's cut leaves |
| AutoProxy.AttrTokenRoundTrip | bartholos/db/autoproxy/managers.py:155-176 | with the six-character cut every well-formed "attr==" / "attr!=" token reads back into exactly its name, value and category |
| AutoProxy.AsWrittenDropsFirstChar | bartholos/db/autoproxy/managers.py:171-176 | as written, `key[7:]` gives every attribute name without its first character |
| AutoProxy.AttrColorExample | bartholos/db/autoproxy/managers.py:171-172 | "attr==color:red" asks for attribute "olor" as written and "color" as intended |
| AutoProxy.TagKeyPrefixes | bartholos/db/autoproxy/managers.py:160-164 | a tag key holds no ":", starts with "tag==" or "tag!=" according to its operator, and `key[5:]` is its name |
| AutoProxy.TagTokenRoundTrip | bartholos/db/autoproxy/managers.py:155-165 | every "tag==" / "tag!=" token reads back into its name and its category (all after the first ":", empty without one) |
| AutoProxy.PlainTokens | bartholos/db/autoproxy/managers.py:167-179 | a token without ":" that is not a tag is a plain search word, even when it starts like an attribute |
| AutoProxy.Classified | bartholos/db/autoproxy/managers.py:155 | one criterion per token, in input order |
| AutoProxy.EveryTokenOnce | bartholos/db/autoproxy/managers.py:155-179 | every token lands in exactly one of the five lists |
| AutoProxy.BucketedKeepsOrder | bartholos/db/autoproxy/managers.py:155-179 | each list keeps the tokens' input order: the lists of a concatenation are the lists of each part, one after the other |
| AutoProxy.PutConcat | bartholos/db/autoproxy/managers.py:161-179 | appending a criterion after two runs appends it to the second |
| AutoProxy.ClassifiedAppend | bartholos/db/autoproxy/managers.py:155 | classification works token by token |
| AutoProxy.SmartSearch | bartholos/db/autoproxy/managers.py:153-181 | the loop fills the five lists exactly as placing each token's criterion in turn does, and the query is the plain words joined by single spaces (corrected cut `key[6:]`; see Findings bartholos/db/autoproxy/managers.py:172,175) |
| AutoProxy.Path | bartholos/db/autoproxy/models.py:70 | a class's path is "<module>.<name>" |
| AutoProxy.TypenameEndsPath | bartholos/db/autoproxy/models.py:69-70 | the class name, which is the `typename`, is what follows the path's last "." |
| AutoProxy.FamilyPaths | bartholos/db/autoproxy/managers.py:373-376 | the family paths are the model's own path and one path per subclass |
| AutoProxy.FamilyMembers | bartholos/db/autoproxy/managers.py:358-362 | an object is in the family iff its proxy path is the model's or a subclass's |
| AutoProxy.ResolvedIsDbModel | bartholos/db/autoproxy/models.py:72-87 | what `_get_dbmodel` finds is a model, never a proxy or abstract one whose parents it should have looked through |
| AutoProxy.MixinsOnly | bartholos/db/autoproxy/models.py:81-84 | bases that are all mixins give no database model |
| AutoProxy.FirstConcreteModel | bartholos/db/autoproxy/models.py:76-86 | the first concrete model after any mixins is the database model |
| AutoProxy.NewProxyClass | bartholos/db/autoproxy/models.py:62-92 | creation fails with "<name> does not appear to inherit from a database model." exactly when no model is found; otherwise the class has path "<module>.<name>", typename `name` and the model found |
| AutoProxy.ChooseClassIsStable | bartholos/db/autoproxy/models.py:161-177 | running `set_proxy_class` again on the path it wrote back settles on the same class |
| AutoProxy.ChooseClassOrder | bartholos/db/autoproxy/models.py:164-174 | the requested class wins when it loads, then the family default, then the concrete model |
| AutoProxy.Candidates | bartholos/db/autoproxy/models.py:211-216 | a string is compared as given, then as "<key>.<string>" for each key of the `PROXY_PATHS` dict (bartholos/settings_default.py:13), in the dict's iteration order; a class only by its path |
| AutoProxy.ExactIsInherited | bartholos/db/autoproxy/models.py:218-226 | an exact match is also an inherited match, and a class matches exactly iff it is the object's own class |
| AutoProxy.ShortNameMatches | bartholos/db/autoproxy/models.py:211-226 | a short class name matches the class found under a configured prefix, exactly and through inheritance |
| AutoProxy.ProxyObject.constructor | bartholos/db/autoproxy/models.py:149-151 | `__init__` runs `set_proxy_class` on the stored path: the class is the first of stored path/default/concrete/loaded class that is available, its path is written back, "proxy_path" is saved once, and the object is not deleted |
| AutoProxy.ProxyObject.SetProxyClass | bartholos/db/autoproxy/models.py:161-177 | the class becomes the first of requested/default/concrete/current that is available, its path is written back, and only "proxy_path" is saved |
| AutoProxy.ProxyObject.Delete | bartholos/db/autoproxy/models.py:232-240 | the first call deletes; every later call raises "This object was already deleted!"; nothing else changes |
| AutoProxy.DeleteTwice | bartholos/db/autoproxy/models.py:232-240 | deleting twice succeeds, then raises |
| Commands.PyPrefix | origin/commands/command.py:58 | Python's `key[:v]`: a prefix of the key, v long when v is non-negative, the key less -v characters when v is negative, clamped at both ends |
| Commands.FirstHit | origin/commands/command.py:55-65 | the first alias in insertion order that passes the test, and none iff no alias passes |
| Commands.MatchAsWrittenIsFirstHit | origin/commands/command.py:46-65 | as written, `match` answers iff some alias passes the as-written test, and then the first such alias in its own letter case |
| Commands.MatchIsFirstHit | origin/commands/command.py:13-17 | with the minimum read as the comment describes it, `match` answers iff some alias passes, and then the first such alias |
| Commands.AsWrittenMinimumIsMaximum | origin/commands/command.py:57-60 | as written, an alias with minimum v accepts exactly the texts of at most v characters that start it: the minimum acts as a maximum |
| Commands.LookKeysAsWritten | bartholos/commands/command.py:59-62 | with keys {"look": 1}, "l" matches but "look" does not as written; as intended "look" matches and the empty text does not |
| Commands.MatchIgnoresCase | origin/commands/command.py:54-56 | the letter case of what is typed never changes the answer |
| Commands.FirstHitSameTests | origin/commands/command.py:55-65 | two texts every alias treats alike find the same first alias |
| Commands.EmptyTextMatchesFirst | origin/commands/command.py:54-63 | as written, the empty text matches the first alias, whatever its minimum |
| Commands.NameMatchesItself | origin/commands/command.py:25-28 | the display name, typed in full, finds the first alias when it has no minimum or a minimum it reaches |
| Commands.PostCmdAlwaysLast | origin/commands/command.py:73-84 | `at_pre_cmd` runs first and `at_post_cmd` runs on every path, exactly once and last, including when `at_pre_cmd`, `parse` or `func` raises |
| Commands.FuncRunsAfterCleanParse | origin/commands/command.py:74-78 | `parse` runs iff `at_pre_cmd` returned false (neither true nor raised); `func` runs iff moreover `parse` raised nothing |
| Commands.ErrorsAreHandled | origin/commands/command.py:74-82 | a CommandException, whether `at_pre_cmd`, `parse` or `func` raised it, reaches `handle_error` with its text, any other exception is only logged, and nothing is handled without one; one raised by `at_pre_cmd` is handled and `parse` does not run |
| Commands.Command.constructor | origin/commands/command.py:97-103 | a command keeps its cmdstring, match key and args, and has run nothing |
| Commands.Command.HandleCommandError | origin/commands/command.py:94-95 | the exception's text is sent to the caller |
| Commands.Command.Run | origin/commands/command.py:73-84 | for each way `at_pre_cmd`, `parse` and `func` can end (returning or raising), the hooks run are exactly `RunHooks`, and the caller is sent the text of an escaped CommandException and nothing else |
| Commands.Command.HandleRaised | origin/commands/command.py:79-82 | a CommandException adds `handle_error` and sends its text; any other exception is only logged; nothing else changes |
| Commands.SendingCommand.constructor | bartholos/commands/command.py:102-114 | a command keeps its arguments and response id, with an empty batch of sendables |
| Commands.SendingCommand.HandleCommandError | bartholos/commands/command.py:97-100 | one sendable with the text is collected and nothing is sent yet |
| Commands.SendingCommand.AtPostCmd | bartholos/commands/command.py:72-74 | the batch goes to the playview only when it is non-empty and the caller has a playview |
| Commands.SendingCommand.Run | bartholos/commands/command.py:76-87 | the same hook order as the other engine; the error text is collected, and forwarded once at the end when there is something to send and a playview |
| Commands.SendingCommand.HandleRaised | bartholos/commands/command.py:82-85 | a CommandException adds `handle_error` and collects its text; any other exception is only logged; nothing is forwarded |
| Objects.Tokens | origin/db/objects.py:22-28 | a line is ignored iff it strips to nothing; otherwise the trimmed line, its first word (no space in it) and the rest after the first space, the rest empty for a single word |
| Objects.WithPriority | origin/db/objects.py:41 | the commands of one priority are a sub-list |
| Objects.InsertAtMost | origin/db/objects.py:41 | inserting a command of lower priority keeps every priority at most the bound |
| Objects.InsertSorted | origin/db/objects.py:41 | inserting into a list sorted by non-increasing priority keeps it sorted |
| Objects.InsertPermutes | origin/db/objects.py:41 | inserting adds the command and loses none |
| Objects.InsertStable | origin/db/objects.py:41 | inserting puts the command after those of its priority already there |
| Objects.SortedByPriority | origin/db/objects.py:39-41 | `sorted_commands` orders by non-increasing priority |
| Objects.SortPermutes | origin/db/objects.py:39-41 | `sorted_commands` is a permutation of `all_commands` |
| Objects.SortIsStable | origin/db/objects.py:39-41 | `sorted_commands` keeps the order of the commands of each priority, as Python's stable sort does |
| Objects.PickedAll | origin/db/objects.py:29-32 | at most one command is built per command type |
| Objects.PickedAllSound | origin/db/objects.py:29-37 | every command built is one of the types, available, and matched by the first word with the alias it is given |
| Objects.PickedAllComplete | origin/db/objects.py:29-37 | every available type that matches the first word is built: there is no break after the first |
| Objects.PickedAllKeepsOrder | origin/db/objects.py:29-41 | over sorted types, a command of higher priority never runs after one of lower priority |
| Objects.PickedAllAsWritten | origin/db/objects.py:30 | as written, at most one command per type |
| Objects.BlankLineRunsNothing | origin/db/objects.py:22-23 | a blank line runs nothing, as written and corrected |
| Objects.InvocationsSound | origin/db/objects.py:21-37 | each command run is available, matches the first word with the alias it gets, and gets the trimmed line and the arguments |
| Objects.InvocationsComplete | origin/db/objects.py:29-32 | each available command matching the first word runs |
| Objects.InvocationsByPriority | origin/db/objects.py:29-41 | commands run in non-increasing priority |
| Objects.XyzzyIsOneWord | origin/db/objects.py:24-28 | "xyzzy" is a single word with no arguments |
| Objects.XyzzyIsNotLook | origin/commands/command.py:54-65 | "xyzzy" matches no alias of `look` |
| Objects.UnawaitedMatchRunsEverything | origin/db/objects.py:30-32 | as written, the line "xyzzy" runs `look`, whose alias does not match; the corrected loop runs nothing |
| Objects.EdgeData | origin/db/objects.py:64-65 | the edge runs from the object to the container, is tagged with the requested proxy, and the caller's keyword fields win over all three |
| Objects.LocationOf | origin/db/objects.py:66 | an object has a location iff its "location" field names an edge |
| Objects.Thing.constructor | origin/db/objects.py:9 | an object with its id, its store and no command run |
| Objects.Thing.ExecuteCmd | origin/db/objects.py:21-32 | the commands run are exactly `Invocations` of the line (corrected: `match` awaited and its minimum read as intended; see Findings origin/db/objects.py:30 and origin/commands/command.py:57-60) |
| Objects.Thing.RunMatching | origin/db/objects.py:29-32 | the loop runs exactly `PickedAll` over the sorted commands |
| Objects.Thing.TryCommand | origin/db/objects.py:30-32 | one command type is built and run iff it is available and one of its aliases matches |
| Objects.Thing.ExecuteCmdAsWritten | origin/db/objects.py:21-32 | as written, the commands run are `InvocationsAsWritten`: every available command |
| Objects.Thing.RunAvailableAsWritten | origin/db/objects.py:29-32 | as written, the loop builds every available command |
| Objects.Thing.AddObjectLocation | origin/db/objects.py:63-74 | an existing edge is rewritten with the new data and keeps its id, re-tagged in memory; otherwise a new edge, tagged "location" by its collection, is created and named in the object's "location" field |
| Objects.Thing.AddObjectLocationAsWritten | origin/db/objects.py:63-74 | as written, an existing edge's data is put on the object's own document instead |
| Objects.Thing.AddToInventory | origin/db/objects.py:76-77 | placing with the "inventory_location" tag (corrected edge write; see Findings origin/db/objects.py:67) |
| Objects.Thing.AddToEquipment | origin/db/objects.py:79-80 | placing with the "equipment_location" tag (corrected edge write; see Findings origin/db/objects.py:67) |
| Objects.Thing.RemoveFromLocation | origin/db/objects.py:82-85 | the edge is deleted and the field cleared; without an edge nothing changes |
| Objects.PlacedIsLinked | origin/db/objects.py:63-74 | after placing, the object names an edge from it to the container, keeping the old edge's id, tagged with the requested proxy (a new edge with "location") |
| Objects.AsWrittenLosesTheLink | origin/db/objects.py:66-67 | as written, re-placing an object with an edge leaves it without a "location" field and the edge unchanged |
| GameSessions.Texts | bartholos/server/game_session.py:90-91 | one `Text` message per line, in order, each carrying `{"data": line}` |
| GameSessions.TextsAppend | bartholos/server/game_session.py:90-97 | sending two lists of lines in turn queues their concatenation |
| GameSessions.Account.constructor | bartholos/db/users/models.py:13-30 | an account with its name, superuser flag, level and no session |
| GameSessions.Frame.constructor | bartholos/server/game_session.py:130-132 | a frame keeps its session and priority flag |
| GameSessions.Frame.Close | bartholos/server/game_session.py:140-143 | the first occurrence of the frame leaves the stack if it is there; nothing else changes |
| GameSessions.FirstIndex | bartholos/server/game_session.py:143 | the first position of an element present in the list |
| GameSessions.RemoveFirst | bartholos/server/game_session.py:142-143 | `list.remove` guarded by `in`: the first occurrence is dropped, and an absent element leaves the list as it was |
| GameSessions.RemoveFirstCount | bartholos/server/game_session.py:142-143 | removing a present element takes away exactly one copy of it |
| GameSessions.CloseTwiceIsNoOp | bartholos/server/game_session.py:140-143 | closing a frame that is on the stack at most once leaves no copy, so closing it again changes nothing |
| GameSessions.Deliverable | bartholos/server/game_session.py:29-36 | the writer loop emits exactly the queued messages with a non-empty event name |
| GameSessions.DeliverableAppend | bartholos/server/game_session.py:29-36 | the writer loop emits in queue order |
| GameSessions.Decide | bartholos/server/game_session.py:49-84 | IDLE lines are dropped first; a priority frame on top alone gets the line; `_py` is pushed only for developers; QUIT is consumed; then the top frame, then the playview, else the line is dropped |
| GameSessions.OnlyTopMatters | bartholos/server/game_session.py:50-54 | only the top frame is consulted: stacks with the same top route every line alike |
| GameSessions.QuitIsCaseSensitive | bartholos/server/game_session.py:62-63 | "QUIT now" is consumed but "quit" goes to the top frame |
| GameSessions.PythonNeedsDeveloper | bartholos/server/game_session.py:56-60 | "_PY 1+1" opens the console for a developer and goes to the top frame for anyone else |
| GameSessions.GameSession.constructor | origin/server/game_session.py:8-15 | a new session has no frame, no user, no playview and nothing queued |
| GameSessions.GameSession.SendEvent | bartholos/server/game_session.py:96-97 | exactly one message is appended at the back of the queue |
| GameSessions.GameSession.SendText | bartholos/server/game_session.py:90-91 | exactly one `{"event": "Text", "data": {"data": text}}` is appended at the back of the queue |
| GameSessions.GameSession.SendGmcp | bartholos/server/game_session.py:93-94 | exactly one `GMCP` message carrying the command and data is appended |
| GameSessions.GameSession.Run | bartholos/server/game_session.py:29-36 | the writer loop: the queue is drained and exactly its messages with an event name are emitted, in order; the stack, user and playview are untouched |
| GameSessions.GameSession.AddParser | bartholos/server/game_session.py:86-88 | the stack grows by exactly the new frame, on top |
| GameSessions.GameSession.HandlePriorityCommand | bartholos/server/game_session.py:49-65 | handled iff the route is the priority frame, `_py` or QUIT; `_py` pushes exactly one new priority console frame and nothing else changes the stack |
| GameSessions.GameSession.HandleIncomingCommand | bartholos/server/game_session.py:67-84 | the line takes the route `Decide` names; only `_py` changes the session, by one fresh priority console frame of this session on top |
| GameSessions.GameSession.Login | bartholos/server/game_session.py:120-122 | the session records the account and joins its session set |
| GameSessions.GameSession.Logout | bartholos/server/game_session.py:124-126 | the session leaves its account's session set and forgets the account |
| OriginSessions.Sid | origin/db/sessions.py:14-15 | the part of the id after its first "/", and an error iff the id has no "/" |
| OriginSessions.WithEventQueue | origin/db/sessions.py:24-27 | `handle_event` puts its entry at the back of the input queue |
| OriginSessions.Entries | origin/db/sessions.py:26 | one `[event, message]` entry per event, in order |
| OriginSessions.WithEventsAppends | origin/db/sessions.py:24-27 | N calls leave their N entries at the end of the queue in call order, behind the entries already queued |
| OriginSessions.WithEventsKeeps | origin/db/sessions.py:24-27 | `handle_event` changes no field but its own session's `input` |
| OriginSessions.Session.constructor | origin/db/sessions.py:12 | a session over its document with nothing sent or started |
| OriginSessions.Session.HandleEvent | origin/db/sessions.py:24-27 | the queue gains the entry when it is a list; otherwise the call fails and nothing changes |
| OriginSessions.Session.SendEvent | origin/db/sessions.py:42-43 | one event is emitted to the client |
| OriginSessions.Session.SendText | origin/db/sessions.py:36-37 | one `Text` event carrying `{"data": text}` is emitted |
| OriginSessions.Session.SendGmcp | origin/db/sessions.py:39-40 | one `GMCP` event carrying the command and data is emitted |
| OriginSessions.Session.Start | origin/db/sessions.py:29-30 | the login parser is started |
| OriginSessions.Session.Login | origin/db/sessions.py:17-19 | the user is recorded on the session document, then the main menu starts |
| OriginParser.Close | origin/server/parser.py:9-11 | unless replaced, the session is left without a parser; when replaced nothing changes |
| OriginParser.Parse | origin/server/parser.py:6-7 | the default `parse` changes nothing |
| OriginParser.OnStart | origin/server/parser.py:13-14 | the default `on_start` changes nothing |
| OriginEvents.CommandText | origin/db/events.py:5 | the command is the message's "data", "" when absent; a non-text "data" is an error |
| OriginEvents.ParserOf | origin/db/events.py:12-14 | the session's parser is its stored name when that is a non-empty text naming a registered parser |
| OriginEvents.Route | origin/db/events.py:4-22 | IDLE lines do nothing; then the session's parser, then its playview, else the "Oops" reply, each case exactly when the earlier ones do not apply |
| OriginEvents.MissingDataIsEmptyCommand | origin/db/events.py:5-9 | a message without "data" is the empty command, which is not a keep-alive |
| OriginEvents.Command | origin/db/events.py:4-22 | the route `Route` names is taken; only the "Oops, cannot handle: <command>" path sends anything |
| OriginEvents.ExecuteEvent | origin/db/sessions.py:32-34 | only a registered handler runs; an unknown event and a GMCP event do nothing |
| Tasks.InputRows | origin/tasks/session.py:8-15 | one row per visited session with queued input, carrying its whole queue as it was before the update and its proxy tag |
| Tasks.InputRowsComplete | origin/tasks/session.py:10-11 | every visited session with queued input has a row |
| Tasks.ClearInputs | origin/tasks/session.py:13 | the statement creates and deletes no document |
| Tasks.ClearInputsEffect | origin/tasks/session.py:10-13 | afterwards no visited session has queued input and each drained one has its activity time set; every other document is untouched |
| Tasks.RowDeliveries | origin/tasks/session.py:18-19 | at most one execution per queued entry; an entry that does not unpack, or whose handler raises, ends the run, since nothing catches it |
| Tasks.RowDeliveriesSnoc | origin/tasks/session.py:18-19 | the entries of a row are handled one after the other, in queue order |
| Tasks.RowDeliveriesStop | origin/tasks/session.py:18-19 | once an entry raises, the later entries change nothing |
| Tasks.RunDeliveriesSnoc | origin/tasks/session.py:8-19 | the rows are handled one after the other, in query order |
| Tasks.RunDeliveriesStop | origin/tasks/session.py:17-19 | once the run raises, the later rows change nothing |
| Tasks.EventDeliveries | origin/tasks/session.py:18-19 | one execution per event, in order |
| Tasks.EntriesDeliver | origin/db/sessions.py:26 | the entries `handle_event` writes always unpack, so the row's executions are its events in order, cut after the first whose handler raises |
| Tasks.SingleInputRow | origin/tasks/session.py:8-15 | a session with queued input that is the only one visited gives exactly one row |
| Tasks.SingleRun | origin/tasks/session.py:17-19 | a run over one row with a registered tag hands on exactly that row's events |
| Tasks.FifoDelivery | origin/tasks/session.py:8-19 | N `handle_event` calls on an empty queue, then one run: the events are executed once each in call order up to and including the first whose handler raises; when none raises all N are executed; either way the queue is empty again, so events after a raising one are lost (corrected handle; see Findings origin/tasks/session.py:17) |
| Tasks.DeliverRow | origin/tasks/session.py:18-19 | the inner loop produces exactly `RowDeliveries` of the row |
| Tasks.SessionInputRun | origin/tasks/session.py:7-19 | the database becomes `ClearInputs` of the old one, and the executions are exactly those of the rows the statement returned, stopping at the first bad entry, unregistered tag or raising handler (corrected handle; see Findings origin/tasks/session.py:17) |
| Tasks.AsWrittenDeliversNothing | origin/tasks/session.py:8-19 | as written, the run executes no event and raises as soon as there is a row |
| Tasks.AsWrittenLosesEvents | origin/tasks/session.py:8-19 | as written, N `handle_event` calls then one run leave the queue empty and none of the N events executed |
| Tasks.CommandRows | origin/tasks/simulation.py:7-15 | one row per visited object with pending commands, carrying its first pending command and its proxy tag |
| Tasks.ShiftCommands | origin/tasks/simulation.py:12 | the statement creates and deletes no document |
| Tasks.RunExecutions | origin/tasks/simulation.py:7-17 | at most one execution per row |
| Tasks.RunExecutionsSnoc | origin/tasks/simulation.py:7-17 | the rows are handled one after the other, in query order |
| Tasks.RunExecutionsStop | origin/tasks/simulation.py:16-17 | once the run raises, the later rows change nothing |
| Tasks.SimulationRun | origin/tasks/simulation.py:6-17 | the database becomes `ShiftCommands` of the old one, and the executions are exactly those of the rows the statement returned (corrected handle and call; see Findings origin/tasks/simulation.py:16-17) |
| Tasks.AsWrittenExecutesNothing | origin/tasks/simulation.py:7-17 | as written, the run executes no command and raises as soon as there is a row |
| Tasks.AsWrittenDropsCommand | origin/tasks/simulation.py:7-17 | as written, one run takes the first pending command off the queue and never executes it |
| Tasks.OneShift | origin/tasks/simulation.py:7-17 | one run hands on exactly the first pending command and leaves the rest queued, the proxy tag kept (corrected handle and call; see Findings origin/tasks/simulation.py:16-17) |
| Tasks.CommandExecutions | origin/tasks/simulation.py:16-17 | one execution per command, in order |
| Tasks.FifoCommands | origin/tasks/simulation.py:7-17 | over k runs the first k pending commands are handed on in order, nothing lost or repeated, and the rest stay queued (corrected handle and call; see Findings origin/tasks/simulation.py:16-17) |
| OriginUsers.FindUserIndex | origin/db/users.py:12-17 | the position of the first account, in scan order, whose lowered name equals the lowered name asked for; none iff no account matches |
| OriginUsers.FindUser | origin/db/users.py:12-17 | `find_user` answers a matching account, and nothing iff none matches |
| OriginUsers.FindUserIgnoresCase | origin/db/users.py:14-15 | names that differ only in letter case find the same account |
| OriginUsers.RecordHoldsNoPlaintext | origin/db/users.py:26-27 | the record written holds exactly the name, the hash, the collection's `user` tag and the key when one is given, and never the password |
| OriginUsers.CreateOutcome | origin/db/users.py:19-27 | a taken name raises "User <name> already exists.", a rejected password "Non-hashable password, try another.", and success gives a fresh id |
| OriginUsers.Authenticate | origin/db/users.py:53-57 | reading a missing document raises; a record without a truthy hash refuses; only a text hash that verifies the password accepts |
| OriginUsers.SetPasswordThenAuthenticate | origin/db/users.py:53-61 | after `set_password(p)`, `p` authenticates |
| OriginUsers.UserManager.constructor | origin/db/users.py:8-10 | the `user` collection over the store, with no accounts listed yet, and the hash and verify functions |
| OriginUsers.UserManager.CreateUser | origin/db/users.py:19-27 | the outcome is `CreateOutcome`; on failure nothing is written; on success the record is added and `find_user` then finds exactly the new account |
| OriginUsers.NewUserIsFound | origin/db/users.py:12-27 | a new account whose name no existing account has is what `find_user` returns next |
| OriginUsers.FindUserAppend | origin/db/users.py:12-17 | when only the appended account can match, `find_user` finds it at the end of the scan |
| OriginUsers.User.constructor | origin/db/users.py:30 | an account handle: its document id and the store |
| OriginUsers.User.SetPassword | origin/db/users.py:59-61 | a fresh hash is stored in `password_hash` and nowhere else; a rejected password raises and writes nothing |
| LoginMachine.Prompt | bartholos/server/login.py:48-65 | `render` sends at most one prompt, none exactly when the screen is closed; the first state asks for the name and the password state for the password |
| LoginMachine.Next | bartholos/server/login.py:67-74 | "return" in any case clears the conversation; in a password state a line with outer whitespace changes nothing |
| LoginMachine.HandlerTexts | bartholos/server/login.py:76-162 | the handlers send at most one text; "return" sends none; a padded password line sends the whitespace refusal |
| LoginMachine.StepByState | bartholos/server/login.py:27-33 | `state_map` sends each state to its own handler, with that handler's effect and texts |
| LoginMachine.LoginNeedsPassword | bartholos/server/login.py:129-153 | only a verified password, or a confirmation equal to the stored password whose account is created, logs in, and never with a padded line |
| LoginMachine.NextKeepsWellFormed | bartholos/server/login.py:76-162 | every line keeps the conversation well formed: a name is stored once a name is asked about, a password once confirmation is asked for |
| LoginMachine.PasswordConfirmKeepsWellFormed | bartholos/server/login.py:140-153 | the confirmation step keeps the conversation well formed, whatever the creation gives |
| LoginMachine.ReturnResets | bartholos/server/login.py:68-71 | "RETURN" is accepted in every state and resets the conversation |
| LoginMachine.UsernameStep | bartholos/server/login.py:76-86 | a blank name changes nothing; any other is stored trimmed and moves to the password if the account exists, else to the confirmation |
| LoginMachine.ConfirmStep | bartholos/server/login.py:118-127 | the trimmed, lowered answer "yes" asks for a password, "no" starts over, anything else is ignored |
| LoginMachine.MismatchAsksAgain | bartholos/server/login.py:147-151 | a confirmation that differs from the stored password forgets it, asks for a new one and says "Passwords don't match, try again." |
| Screens.FindAccountIndex | bartholos/server/login.py:82 | the position of the first account whose name equals the given one ignoring case; none iff there is no such account |
| Screens.FindAccount | bartholos/server/login.py:82 | `filter_family(username__iexact=...).first()` answers an account with that name in any case, or nothing when none has it |
| Screens.AccountDirectory.constructor | bartholos/server/login.py:25 | an empty account directory over the given hash and check functions |
| Screens.AccountDirectory.Create | bartholos/server/login.py:90-100 | a refused row raises its error and adds nothing; otherwise one fresh account with that name, the superuser flag asked for, level 0 and the hash of the password is appended |
| Screens.CharacterRoster.constructor | bartholos/server/main_menu.py:94 | the player characters' names |
| Screens.MenuMessages | bartholos/server/main_menu.py:13-50 | the menu is a sessions table with one row per session, a characters table only when characters are owned, then the four-row commands table, each as a `Table` event |
| Screens.MenuCommand | bartholos/server/main_menu.py:52-70 | a blank line redraws; otherwise the lowered first word picks play, create or logout, with the rest of the line as argument, and any other word does nothing |
| Screens.WordsRebuildLine | bartholos/server/main_menu.py:57-60 | the command word, a space and the argument give back the trimmed line |
| Screens.PlayDecision | bartholos/server/main_menu.py:72-91 | no owned characters, then no argument, then no match each stop the command, in that order; a match joins exactly when it may be played |
| Screens.LoginParser.constructor | bartholos/server/login.py:16-33 | a new screen starts cleared, with no account |
| Screens.LoginParser.Start | bartholos/server/login.py:35-40 | the frame goes on top of the stack, then the welcome text and the first prompt are sent |
| Screens.LoginParser.Render | bartholos/server/login.py:48-65 | the prompt of the current state is sent and nothing else changes |
| Screens.LoginParser.Clear | bartholos/server/login.py:42-46 | back to the first state with no name, password or account |
| Screens.LoginParser.Close | bartholos/server/login.py:108-109 | the state becomes None and the frame leaves the session's stack |
| Screens.LoginParser.Login | bartholos/server/login.py:111-116 | the screen closes, the session records the account, the account gains the session, and a main menu is pushed and drawn |
| Screens.LoginParser.HandleUsername | bartholos/server/login.py:76-86 | the state moves as `UsernameStep` says, and the account held is the one the directory finds for the trimmed name |
| Screens.LoginParser.HandleUsernameConfirm | bartholos/server/login.py:118-127 | the state moves as `ConfirmStep` says; "no" forgets the account |
| Screens.LoginParser.HandleNewPassword | bartholos/server/login.py:155-162 | a padded password is refused with a message; any other is stored and confirmation is asked for |
| Screens.LoginParser.HandleWelcomePassword | bartholos/server/login.py:129-138 | a padded line is refused; a password the account's hash verifies logs in; any other sends "Invalid credentials" and changes nothing else |
| Screens.LoginParser.CreateUser | bartholos/server/login.py:88-106 | with no accounts the new one is a superuser and the session is told so; a refused creation sends the error and starts over; a created account logs in |
| Screens.LoginParser.AskAgain | bartholos/server/login.py:147-151 | the mismatch message, the password forgotten, and a new password asked for |
| Screens.LoginParser.HandlePasswordConfirm | bartholos/server/login.py:140-153 | the state moves as `Next` says for the confirmation state; a login happens exactly when the new account is created and pushes the main menu |
| Screens.LoginParser.Ask | bartholos/server/login.py:73 | for the three asking states, the handler's effect is `Next` and its texts are `HandlerTexts` |
| Screens.LoginParser.Answer | bartholos/server/login.py:73 | for the two password states, the handler's effect is `Next`; logging in records the account on the session |
| Screens.LoginParser.Dispatch | bartholos/server/login.py:73 | `state_map[state](text)` has the effect `Next` and sends `HandlerTexts` |
| Screens.LoginParser.Parse | bartholos/server/login.py:67-74 | the conversation moves by `Next`, the texts are the handler's then the new prompt, and a main menu is pushed exactly when `LogsIn` holds |
| Screens.MainMenuParser.constructor | bartholos/server/main_menu.py:9 | a menu frame for the session |
| Screens.MainMenuParser.Start | bartholos/server/main_menu.py:10-11 | the frame goes on top of the stack and the menu is drawn |
| Screens.MainMenuParser.Render | bartholos/server/main_menu.py:13-50 | the menu's tables are sent and nothing else changes |
| Screens.MainMenuParser.HandlePlay | bartholos/server/main_menu.py:72-91 | the outcome is `PlayDecision`; each refusal sends its message; only a joined character closes the menu |
| Screens.MainMenuParser.HandleCreate | bartholos/server/main_menu.py:93-104 | a name some player character has, in any case, is refused with a message; otherwise the character is added to the roster and the account, the menu is redrawn and the creation announced |
| Screens.MainMenuParser.HandleLogout | bartholos/server/main_menu.py:106-109 | the menu closes, the session leaves the account, and a fresh login screen is pushed and prompts |
| Screens.MainMenuParser.Parse | bartholos/server/main_menu.py:52-109 | the action taken is `MenuCommand`; a redraw draws the menu and changes nothing else; `play` sends the texts of `PlayDecision` and closes the menu exactly when a character is joined; `create` refuses a taken name with one message, otherwise adds the character to the roster and the account and redraws with the confirmation; an unknown word changes nothing; `logout` leaves the session without an account and with one fresh login screen on top of the rest of the stack, greeted and prompted |
| Screens.StartFresh | bartholos/server/game_session.py:99-102 | a new login screen is pushed, cleared, and sends the welcome text and the first prompt |
| Screens.RunSession | bartholos/server/game_session.py:27-39 | `run`: `start` pushes one fresh cleared login screen on top, then the writer loop empties the queue, emitting the messages already queued that have an event name, then the welcome text and the username prompt |
| OriginLogin.AsWrittenLeavesLevelUnset | origin/server/login.py:94 | the patch as written stores `{"level": 5}` under a field named `data`, so the new account's `level` stays unset |
| OriginLogin.FirstUserIsDeveloper | origin/server/login.py:93-94 | the intended patch sets the account's `level` to 5 and changes no other field or document |
| OriginLogin.LoginDocsReads | origin/db/sessions.py:17-19 | after a login the session document holds the account id under `user` and no parser; nothing else changes |
| OriginLogin.RegistryKeeps | origin/db/users.py:12-17 | writing anything but an account's name keeps the account registry that `find_user` scans |
| OriginLogin.LoginParser.constructor | origin/server/login.py:16-29 | a new screen starts cleared, with no account |
| OriginLogin.LoginParser.OnStart | origin/server/login.py:34-36 | the welcome text, then the first prompt |
| OriginLogin.LoginParser.Render | origin/server/login.py:44-61 | the prompt of the current state is sent |
| OriginLogin.LoginParser.Clear | origin/server/login.py:38-42 | back to the first state with no name, password or account |
| OriginLogin.LoginParser.Refuse | origin/server/login.py:98-100 | the error text is sent and the conversation starts over |
| OriginLogin.LoginParser.Login | origin/server/login.py:108-113 | the screen closes, the session document records the account with no parser, and the main menu is started |
| OriginLogin.LoginParser.HandleUsername | origin/server/login.py:72-84 | the state moves as `UsernameStep` says, with the account `find_user` gives for the trimmed name |
| OriginLogin.LoginParser.HandleUsernameConfirm | origin/server/login.py:115-124 | the state moves as `ConfirmStep` says |
| OriginLogin.LoginParser.HandleNewPassword | origin/server/login.py:152-159 | a padded password is refused; any other is stored and confirmation is asked for |
| OriginLogin.LoginParser.HandleWelcomePassword | origin/server/login.py:126-135 | a padded line is refused; a password that authenticates logs in; any other is refused and nothing is written |
| OriginLogin.LoginParser.Promote | origin/server/login.py:93-97 | only the first account is patched to developer level and told it is the first (corrected patch; see Findings origin/server/login.py:94) |
| OriginLogin.LoginParser.Admit | origin/server/login.py:93-103 | after creation the first account is promoted and the new account logs in; `find_user` then finds it (corrected patch; see Findings origin/server/login.py:94) |
| OriginLogin.LoginParser.CreateUser | origin/server/login.py:86-103 | the accounts are counted before the creation; on success the account is appended, promoted when it is the first, and logged in; on error the text is sent, the screen starts over and nothing is written (corrected patch; see Findings origin/server/login.py:94; the count is taken as the number of accounts, see Left out) |
| OriginLogin.LoginParser.AskAgain | origin/server/login.py:144-148 | the mismatch message, the password forgotten, and a new password asked for |
| OriginLogin.LoginParser.HandlePasswordConfirm | origin/server/login.py:137-150 | the state moves as `Next` says; the screen closes exactly when the line is unpadded, equals the password and the account is created, and then the new account is logged in |
| OriginLogin.LoginParser.Ask | origin/server/login.py:69 | for the three asking states, the handler's effect is `Next` and its texts are `HandlerTexts` |
| OriginLogin.LoginParser.Answer | origin/server/login.py:69 | for the two password states, the handler's effect is `Next`; logging in records the account on the session document |
| OriginLogin.LoginParser.Dispatch | origin/server/login.py:69 | `state_map[state](text)` has the effect `Next` and sends `HandlerTexts` |
| OriginLogin.LoginParser.Parse | origin/server/login.py:63-70 | the conversation moves by `Next`, the texts are the handler's then the new prompt, and the database changes only when `LogsIn` holds |
| OriginLogin.CreationOf | origin/server/login.py:86-100 | a creation counts as done iff `create_user` succeeded, as the first account iff the count was zero, and otherwise carries the error's text |
| OriginLogin.LoginDocsKeepsRegistry | origin/db/sessions.py:17-19 | a login, which writes only the session document, keeps the account registry |
| OriginLogin.ConfirmedAccountIsFound | origin/server/login.py:86-103 | the account a confirmation creates is the one `find_user` finds next, and the session records it |
| Text.Lower | bartholos/server/login.py:68 | lowering keeps the length and lowers each ASCII letter in place |
| Text.LowerIdempotent | origin/db/users.py:14-15 | helper for the case-insensitive name match: lowering twice is lowering once |
| Text.LowerPrefix | bartholos/server/login.py:68 | helper for the lowered `return` test: lowering keeps prefixes |
| Text.LStripSpec | bartholos/server/login.py:77 | what is dropped is whitespace and what is kept does not start with whitespace |
| Text.RStripSpec | bartholos/server/login.py:77 | what is dropped is whitespace and what is kept does not end with whitespace |
| Text.StripSpec | bartholos/server/login.py:77 | `strip` keeps a contiguous slice of the text, with only whitespace around it and none at either end |
| Text.StripEmptyIffBlank | bartholos/server/login.py:77-79 | the stripped text is empty iff the text is all whitespace |
| Text.StripUnchangedIff | bartholos/server/login.py:130 | stripping changes nothing iff the text neither starts nor ends with whitespace |
| Text.StripIdempotent | bartholos/server/login.py:119 | stripping twice is stripping once |
| Text.IndexOf | bartholos/server/main_menu.py:57 | the position of the first occurrence of the character; none iff it does not occur |
| Text.SplitFirst | bartholos/server/main_menu.py:57-60 | the head holds no separator and head, separator and tail give back the text; without a separator the tail is empty |
| Text.IndexOfAfter | bartholos/server/main_menu.py:58 | the first separator after a head free of it is right after the head |
| Text.SplitFirstAt | bartholos/db/autoproxy/managers.py:161-176 | splitting `head + sep + tail` at its first separator gives back head and tail |
| Text.LStripCharSpec | bartholos/utils/utils.py:19-25 | `lstrip("#")` leaves a suffix not starting with `#`, having dropped only `#` |
| Text.DigitChar | bartholos/utils/utils.py:26 | helper for the `int(inp)` round trip: each digit value has its ASCII digit |
| Text.Decimal | bartholos/utils/utils.py:26 | helper for the `int(inp)` round trip: the decimal text of a number is never empty |
| Text.DecimalRoundTrip | bartholos/utils/utils.py:26 | `int(str(n)) == n` |
| Text.LeadingZeroValue | bartholos/utils/utils.py:19-26 | a leading zero does not change the value `int` reads |
| JsonData.StrArr | bartholos/server/main_menu.py:39-48 | a list of strings becomes a JSON array of those strings, in order |

## Left out

- Sockets, socket.io `emit`, the HTTP clients and the asyncio queues: sending is an append to a list, and a reply is the next entry of a script.
- The `await` scheduling of coroutines: each coroutine runs to completion where it is awaited. Interleavings of sessions are not modelled, and each store statement is taken as atomic.
- The store's query language: the drain statements of origin/tasks/session.py and origin/tasks/simulation.py, and the filter of `find_user`, are functions over the document map.
- `get_field`, `set_field`, `get_proxy` and `change_proxy` are used by origin/db/*.py but are not part of this model's sources. They are modelled as reads and writes of the document map. `SessionParser.close` (origin/server/parser.py:11) calls `session.set_parser`, which origin/db/sessions.py does not define; the model clears the session's `parser` field instead.
- `create_document` always writes to `/_api/document/user`, whatever the collection. The model keeps that path.
- `smart_search` builds its five lists and the joined query, then returns None. The model returns the lists and the query.
- `shlex.split` of the search text is not modelled: the tokens are the input.
- `_get_subclasses` walks a list it appends to. The model takes a class's subclasses as given.
- `class_from_module` and `import_from_module` are modelled as a map from class path to class (`loadable`).
- The Django metaclass and manager wiring, the ORM field declarations, and `__class__` swapping are left out. The current class is a path field.
- Hashing and checking passwords (argon2 through passlib) are parameters. `create_superuser`/`create_user` in the stack engine are a directory that appends an account.
- `can_detect`, `can_play`, `join_play` and `partial_match` are parameters or left out; the model records which character would be joined.
- The timestamps written by the drain tasks and by `record_login` are a `now` parameter. The game effects of `unstow` and `announce_join_game` are reduced to their order.
- GameSessions.GameSession.Run, Screens.RunSession: `while msg := await self.outgoing_queue.get()` (bartholos/server/game_session.py:29) waits for the next message forever; the model ends the loop once the queue is empty, which is the state in which the source waits.
- The Python console, rich rendering, the launcher, the boot code, the settings, the float weights and the game commands are left out.
- `isdigit` and `lower` are taken over ASCII: other Unicode digits and letters are not modelled.
- The document engine's login screen calls `send_text` without `await`, calls `close()` without the session, and calls `add_parser`, which the session does not have. The model gives these calls their evident effect: the text is sent, the session's parser is cleared, and the main menu is started.
- The main menu reads `self.user`, which its parser base class does not define. The model reads the session's user.
- OriginUsers.FindUser, OriginUsers.UserManager.CreateUser, OriginLogin.LoginParser.HandleUsername: `find_user` (origin/db/users.py:13) writes `async for … in await self.dbmanager.query_proxy(...)`, and `query_proxy` (origin/db/core.py:134-136) is an async generator, which cannot be awaited; as written `find_user` raises TypeError on every call, and so do `create_user` and the origin login screen's name lookups. The model reads the first matching account, as the loop evidently intends. `User.characters` (origin/db/users.py:32) has the same `await` and is not modelled.
- Screens.LoginParser.HandleWelcomePassword: `check_password` is the directory's `verify` applied to the stored hash.
- Screens.MainMenuParser.HandlePlay, Screens.MainMenuParser.HandleCreate: bartholos/server/main_menu.py:74,78,82,95,104 `await` the None that the synchronous `send_text` returns (bartholos/server/game_session.py:90-91). The text is queued, then a TypeError propagates and the rest of the handler does not run. The model queues the text and carries on as the handler evidently intends.
- OriginLogin.LoginParser.constructor: `super().__init__(sess, priority)` (origin/server/login.py:17) reaches `object.__init__`, because `SessionParser` (origin/server/parser.py:5-14) defines no `__init__`; as written it raises TypeError. The model builds a cleared screen over the session.
- OriginLogin.LoginParser.Parse: the event router (origin/db/events.py:13-15) looks up one registered parser by name and calls `parser.parse(session, command)`, while the screen defines `parse(self, text)` (origin/server/login.py:63) and keeps its username, password and account on that one shared instance. The model gives each session its own screen and passes the line as `text`.
- OriginLogin.LoginParser.CreateUser: `await users.count()` (origin/server/login.py:88) calls a method `CollectionManager` (origin/db/core.py:139-212) does not have; as written it raises AttributeError outside the `try`, so nothing is sent and nothing is cleared. The model takes the count as the number of accounts in the registry.
- OriginUsers.Authenticate: `self.getDocument()` (origin/db/users.py:54-55) goes through `DocumentProxy.getDocument` (origin/db/core.py:226-227) to `getDocument(id)` with its default `proxy=True` (origin/db/core.py:110,117-119), so it returns a handle, which has no `.get`; as written authenticating raises for every account. The model reads the raw record's `password_hash`.
- OriginUsers.SetPasswordThenAuthenticate: holds for the raw-record reading of `authenticate` above, not for the code as written, where authenticating raises.
- OriginLogin.LoginParser.HandleWelcomePassword: logs in through the raw-record reading of `authenticate` above; as written the password check raises and no password is ever accepted.

## Findings

| source | as written | input that shows it | evidently intended | confidence | as-written member | corrected member |
|---|---|---|---|---|---|---|
| origin/commands/command.py:57-60 (also bartholos/commands/command.py:59-62) | an alias with minimum `v` matches only texts that are prefixes of `alias[:v]`, so the minimum acts as a maximum | keys `{"look": 1}`: "look" finds nothing and "" finds "look" | the typed text has at least `v` characters and is a prefix of the alias | not executed; high | Commands.AsWrittenMinimumIsMaximum | Commands.MatchIsFirstHit |
| origin/db/objects.py:30 | `cls.match(...)` is not awaited, so the coroutine is always truthy and every available command is built and run | the line "xyzzy" with an available `look` command runs `look` | only the commands whose alias matches the first word are run | not executed; high | Objects.UnawaitedMatchRunsEverything | Objects.InvocationsSound |
| bartholos/db/autoproxy/managers.py:172,175 | the attribute name is `key[7:]`, one character past the six-character prefix "attr==" / "attr!=" | "attr==color:red" asks for attribute "olor" | `key[6:]`, giving "color" | not executed; high | AutoProxy.AsWrittenDropsFirstChar | AutoProxy.AttrTokenRoundTrip |
| origin/db/objects.py:67 | the existing edge's data is put on the object's own document (`obj.putDocument`) instead of the edge's | re-placing an object that already has a location edge | the edge document is rewritten and the object keeps its `location` link | not executed; high | Objects.AsWrittenLosesTheLink | Objects.PlacedIsLinked |
| origin/server/login.py:94 | `patchDocument(data={"level": 5})` sends `{"data": {"level": 5}}`, because `patchDocument` sends its keyword arguments as the body | creating the first account: its `level` stays unset | the first account's `level` becomes 5 | not executed; medium | OriginLogin.AsWrittenLeavesLevelUnset | OriginLogin.FirstUserIsDeveloper |
| origin/tasks/session.py:17 | `AUTOPROXY[proxy](docid, core.db)` passes the id string as the record, and `DocumentProxy.__init__` (origin/db/core.py:217) calls `data.get("_id")` on it, which raises; the statement has already emptied every queue | one `handle_event` call on a session, then one run: the queue is empty and the event is never executed | the handle is built for the document id and every taken event is executed, session by session | not executed; high | Tasks.AsWrittenLosesEvents | Tasks.FifoDelivery |
| origin/tasks/simulation.py:16-17 | the handle is built from the id string as in the input task, and `execute_command` is not a method of `Object`, which defines `execute_cmd` (origin/db/objects.py:21) | an object with one pending command, then one run: the command leaves the queue and is never executed | the first pending command of each object is executed | not executed; high | Tasks.AsWrittenDropsCommand | Tasks.FifoCommands |
