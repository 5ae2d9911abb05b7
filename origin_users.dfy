/** The user registry of the document-backed server: accounts are documents of
    the `user` collection, looked up by name without regard to letter case. The
    password hasher is a parameter: `hash` answers None for a password it
    rejects, `verify` checks a password against a stored hash. */
module OriginUsers {
  import opened Wrappers
  import opened JsonData
  import opened Text
  import opened Documents
  import opened Database

  const NON_HASHABLE: string := "Non-hashable password, try another."
  /** The error of a write whose key is already taken; the server's own text is
      not part of this model. */
  const KEY_TAKEN: string := "Could not create user"

  function AlreadyExists(username: string): string {
    "User " + username + " already exists."
  }

  /** The stored `username` of document `id`, when it is a text. */
  function StoredName(docs: Docs, id: string): Option<string> {
    var v := FieldOf(docs, id, "username", JNull);
    if v.JStr? then Some(v.s) else None
  }

  /** `LOWER(doc.username) == @username` with `@username` the lowered name. */
  predicate NameMatches(docs: Docs, id: string, name: string) {
    StoredName(docs, id).Some? && Lower(StoredName(docs, id).value) == Lower(name)
  }

  /** The position of the first document of the collection, in scan order, whose
      name matches. */
  function FindUserIndex(docs: Docs, order: seq<string>, name: string): (r: Option<nat>)
    ensures r.Some? ==> r.value < |order| && NameMatches(docs, order[r.value], name)
    ensures r.Some? ==> forall j :: 0 <= j < r.value ==> !NameMatches(docs, order[j], name)
    ensures r.None? <==> forall j :: 0 <= j < |order| ==> !NameMatches(docs, order[j], name)
  {
    if order == [] then None
    else if NameMatches(docs, order[0], name) then Some(0)
    else
      var rest := FindUserIndex(docs, order[1..], name);
      if rest.Some? then Some(rest.value + 1) else None
  }

  /** `find_user(username)`: the first matching account, or nothing. */
  function FindUser(docs: Docs, order: seq<string>, name: string): (r: Option<string>)
    ensures r.Some? ==> r.value in order && NameMatches(docs, r.value, name)
    ensures r.None? <==> forall j :: 0 <= j < |order| ==> !NameMatches(docs, order[j], name)
  {
    var k := FindUserIndex(docs, order, name);
    if k.Some? then Some(order[k.value]) else None
  }

  /** Names that differ only in letter case find the same account. */
  lemma {:induction false} FindUserIgnoresCase(docs: Docs, order: seq<string>, a: string, b: string)
    requires Lower(a) == Lower(b)
    ensures FindUserIndex(docs, order, a) == FindUserIndex(docs, order, b)
    ensures FindUser(docs, order, a) == FindUser(docs, order, b)
    decreases |order|
  {
    if order != [] {
      FindUserIgnoresCase(docs, order[1..], a, b);
    }
  }

  /** The record `create_user` writes: the name and the hash, tagged as a user,
      with `_key` when a key is given. */
  function UserRecord(username: string, hash: string, key: Option<string>): Doc {
    Prepared(map["username" := JStr(username), "password_hash" := JStr(hash)],
             if key.Some? then Some(JStr(key.value)) else None, Some("user"))
  }

  /** The record holds the name and the hash and never the password itself. */
  lemma RecordHoldsNoPlaintext(username: string, hash: string, key: Option<string>)
    ensures UserRecord(username, hash, key).Keys
      == {"username", "password_hash", "proxy"} + (if key.Some? then {"_key"} else {})
    ensures UserRecord(username, hash, key)["username"] == JStr(username)
    ensures UserRecord(username, hash, key)["password_hash"] == JStr(hash)
    ensures UserRecord(username, hash, key)["proxy"] == JStr("user")
  {
    var base := map["username" := JStr(username), "password_hash" := JStr(hash)];
    assert base.Keys == {"username", "password_hash"};
  }

  /** The id of the new document: `user/<key>` for a given key, else the one the
      server assigns. */
  function NewId(key: Option<string>, serverId: string): string {
    if key.Some? then "user/" + key.value else serverId
  }

  /** What `create_user` comes to: the new document's id, or the error text. */
  function CreateOutcome(docs: Docs, order: seq<string>, hash: string -> Option<string>,
                         username: string, password: string, key: Option<string>, serverId: string): (r: Result<string, string>)
    ensures FindUser(docs, order, username).Some? ==> r == Failure(AlreadyExists(username))
    ensures FindUser(docs, order, username).None? && hash(password).None? ==> r == Failure(NON_HASHABLE)
    ensures r.Success? ==> r.value == NewId(key, serverId) && r.value !in docs && hash(password).Some?
  {
    if FindUser(docs, order, username).Some? then Failure(AlreadyExists(username))
    else if hash(password).None? then Failure(NON_HASHABLE)
    else if NewId(key, serverId) in docs then Failure(KEY_TAKEN)
    else Success(NewId(key, serverId))
  }

  /** The collection as listed: every listed id names a document, none twice, and
      no two accounts have names equal up to letter case. */
  predicate Registry(docs: Docs, order: seq<string>) {
    (forall j :: 0 <= j < |order| ==> order[j] in docs)
    && (forall i, j :: 0 <= i < j < |order| ==> order[i] != order[j])
    && (forall i, j :: 0 <= i < j < |order| ==> !(StoredName(docs, order[i]).Some? && NameMatches(docs, order[j], StoredName(docs, order[i]).value)))
  }

  /** `authenticate(password)`: a missing document makes the read raise (None); a
      record without a truthy hash refuses; a text hash is checked by `verify`; a
      hash of another type makes the verifier raise (None). */
  function Authenticate(docs: Docs, id: string, password: string, verify: (string, string) -> bool): (r: Option<bool>)
    ensures id !in docs ==> r.None?
    ensures id in docs && !Truthy(Get(docs[id], "password_hash", JNull)) ==> r == Some(false)
    ensures r == Some(true) ==> (FieldOf(docs, id, "password_hash", JNull).JStr?
                                 && verify(password, FieldOf(docs, id, "password_hash", JNull).s))
  {
    if id !in docs then None
    else
      var h := Get(docs[id], "password_hash", JNull);
      if !Truthy(h) then Some(false)
      else if h.JStr? then Some(verify(password, h.s))
      else None
  }

  /** After `set_password(p)` with a hasher whose hashes verify, `p` authenticates. */
  lemma SetPasswordThenAuthenticate(docs: Docs, id: string, password: string,
                                    hash: string -> Option<string>, verify: (string, string) -> bool)
    requires id in docs && hash(password).Some?
    requires hash(password).value != "" && verify(password, hash(password).value)
    ensures Authenticate(WithField(docs, id, "password_hash", JStr(hash(password).value)), id, password, verify) == Some(true)
  {
    var after := WithField(docs, id, "password_hash", JStr(hash(password).value));
    assert Get(after[id], "password_hash", JNull) == JStr(hash(password).value);
  }

  class UserManager {
    const store: DocumentStore
    /** The ids of the collection's documents, in scan order. */
    var order: seq<string>
    const hash: string -> Option<string>
    const verify: (string, string) -> bool

    constructor (store: DocumentStore, hash: string -> Option<string>, verify: (string, string) -> bool)
      requires Registry(store.docs, [])
      ensures this.store == store && order == [] && this.hash == hash && this.verify == verify && Valid()
    {
      this.store := store;
      order := [];
      this.hash := hash;
      this.verify := verify;
    }

    predicate Valid()
      reads this, store
    {
      Registry(store.docs, order)
    }

    /** `create_user(username, password, key)`: refuse a name taken in any letter
        case and a password the hasher rejects; otherwise write the record. The
        new account is the one `find_user` then finds, and a registry stays one. */
    method CreateUser(username: string, password: string, key: Option<string>, serverId: string) returns (r: Result<string, string>)
      modifies this, store
      ensures r == CreateOutcome(old(store.docs), old(order), hash, username, password, key, serverId)
      ensures r.Failure? ==> store.docs == old(store.docs) && order == old(order)
      ensures r.Success? ==> (
        store.docs == old(store.docs)[r.value := UserRecord(username, hash(password).value, key)]
        && order == old(order) + [r.value])
      ensures r.Success? ==> FindUser(store.docs, order, username) == Some(r.value)
      ensures old(Valid()) ==> Valid()
    {
      r := CreateOutcome(store.docs, order, hash, username, password, key, serverId);
      if r.Failure? {
        return;
      }
      ghost var docs0 := store.docs;
      ghost var order0 := order;
      var record := UserRecord(username, hash(password).value, key);
      store.docs := store.docs[r.value := record];
      order := order + [r.value];
      InsertedNames(docs0, r.value, username, hash(password).value, key, r.value);
      if Registry(docs0, order0) {
        forall j | 0 <= j < |order0|
          ensures order0[j] in store.docs && StoredName(store.docs, order0[j]) == StoredName(docs0, order0[j])
        {
          assert order0[j] != r.value;
          InsertedNames(docs0, r.value, username, hash(password).value, key, order0[j]);
        }
        NewUserIsFound(docs0, order0, store.docs, username, r.value);
      } else {
        forall j | 0 <= j < |order0| && order0[j] != r.value
          ensures !NameMatches(store.docs, order0[j], username)
        {
          InsertedNames(docs0, r.value, username, hash(password).value, key, order0[j]);
          assert !NameMatches(docs0, order0[j], username);
        }
        FindUserAppend(store.docs, order0, username, r.value);
      }
    }
  }

  /** Writing a new account record gives it the name typed and keeps every other
      document's name. */
  lemma InsertedNames(docs0: Docs, id: string, username: string, hash: string, key: Option<string>, k: string)
    ensures StoredName(docs0[id := UserRecord(username, hash, key)], k)
      == (if k == id then Some(username) else StoredName(docs0, k))
  {
    RecordHoldsNoPlaintext(username, hash, key);
  }

  /** Appending a document whose name no listed account matches keeps the
      registry and is what `find_user` then returns. */
  lemma NewUserIsFound(docs0: Docs, order0: seq<string>, docs: Docs, username: string, id: string)
    requires Registry(docs0, order0) && id !in docs0 && id in docs
    requires FindUser(docs0, order0, username).None?
    requires StoredName(docs, id) == Some(username)
    requires forall j :: 0 <= j < |order0| ==> order0[j] in docs && StoredName(docs, order0[j]) == StoredName(docs0, order0[j])
    ensures Registry(docs, order0 + [id])
    ensures FindUser(docs, order0 + [id], username) == Some(id)
  {
    var order := order0 + [id];
    assert forall j :: 0 <= j < |order0| ==> order[j] == order0[j];
    forall j | 0 <= j < |order0|
      ensures !NameMatches(docs, order[j], username)
    {
      assert !NameMatches(docs0, order0[j], username);
    }
    forall i, j | 0 <= i < j < |order|
      ensures !(StoredName(docs, order[i]).Some? && NameMatches(docs, order[j], StoredName(docs, order[i]).value))
    {
      if j < |order0| {
        assert order[i] == order0[i] && order[j] == order0[j];
      }
    }
    FindUserAppend(docs, order0, username, id);
  }

  /** When only entries naming `id` itself can match, `find_user` over the list
      with `id` appended finds `id`. */
  lemma {:induction false} FindUserAppend(docs: Docs, order: seq<string>, name: string, id: string)
    requires forall j :: 0 <= j < |order| && order[j] != id ==> !NameMatches(docs, order[j], name)
    requires NameMatches(docs, id, name)
    ensures FindUserIndex(docs, order + [id], name).Some?
    ensures (order + [id])[FindUserIndex(docs, order + [id], name).value] == id
    ensures FindUser(docs, order + [id], name) == Some(id)
    decreases |order|
  {
    if order != [] && !NameMatches(docs, order[0], name) {
      assert (order + [id])[1..] == order[1..] + [id];
      FindUserAppend(docs, order[1..], name, id);
    }
  }

  /** A user document as the login screen sees it. */
  class User {
    const id: string
    const store: DocumentStore

    constructor (id: string, store: DocumentStore)
      ensures this.id == id && this.store == store
    {
      this.id := id;
      this.store := store;
    }

    /** `set_password(password)`: store a fresh hash; a rejected password makes
        the hasher raise (false) and nothing is written. Patching a document that
        does not exist changes nothing. */
    method SetPassword(password: string, hash: string -> Option<string>) returns (ok: bool)
      modifies store
      ensures ok <==> hash(password).Some?
      ensures !ok ==> store.docs == old(store.docs)
      ensures ok && id in old(store.docs) ==> store.docs == WithField(old(store.docs), id, "password_hash", JStr(hash(password).value))
      ensures ok && id !in old(store.docs) ==> store.docs == old(store.docs)
    {
      var hashed := hash(password);
      if hashed.None? {
        return false;
      }
      if id in store.docs {
        store.SetField(id, "password_hash", JStr(hashed.value));
      }
      ok := true;
    }
  }
}
