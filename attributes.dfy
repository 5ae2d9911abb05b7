/** The attribute handler of an object: named values grouped by category, kept
    as rows of the object's attribute table, at most one row per
    (category, name). */
module Attributes {
  import opened Wrappers
  import opened JsonData

  /** One row of the attribute table. */
  datatype AttrRow = AttrRow(category: string, name: string, value: Json)

  /** At most one row per (category, name), as the table's uniqueness
      constraint demands. */
  predicate Unique(rows: seq<AttrRow>) {
    forall i, j :: 0 <= i < j < |rows| ==> (rows[i].category, rows[i].name) != (rows[j].category, rows[j].name)
  }

  /** `filter(category=..., name=...).first()`: the first row for the pair. */
  function Find(rows: seq<AttrRow>, category: string, name: string): (r: Option<nat>)
    ensures r.Some? ==> r.value < |rows| && rows[r.value].category == category && rows[r.value].name == name
    ensures r.Some? ==> forall k :: 0 <= k < r.value ==> !(rows[k].category == category && rows[k].name == name)
    ensures r.None? ==> forall k :: 0 <= k < |rows| ==> !(rows[k].category == category && rows[k].name == name)
  {
    if rows == [] then None
    else if rows[0].category == category && rows[0].name == name then Some(0)
    else match Find(rows[1..], category, name)
      case None => None
      case Some(i) => Some(i + 1)
  }

  /** The value stored for the pair, if any. */
  function Lookup(rows: seq<AttrRow>, category: string, name: string): Option<Json> {
    match Find(rows, category, name)
    case None => None
    case Some(i) => Some(rows[i].value)
  }

  /** The rows after `add(name, value, category)`. */
  function Added(rows: seq<AttrRow>, category: string, name: string, value: Json): seq<AttrRow> {
    match Find(rows, category, name)
    case Some(i) => rows[i := rows[i].(value := value)]
    case None => rows + [AttrRow(category, name, value)]
  }

  /** The rows after `remove(name, category)`. */
  function Removed(rows: seq<AttrRow>, category: string, name: string): seq<AttrRow> {
    match Find(rows, category, name)
    case Some(i) => rows[..i] + rows[i + 1..]
    case None => rows
  }

  /** The rows after `clear(category)`: every row of the category is gone. */
  function Cleared(rows: seq<AttrRow>, category: string): (r: seq<AttrRow>)
    ensures |r| <= |rows|
  {
    if rows == [] then []
    else
      var rest := Cleared(rows[..|rows| - 1], category);
      var last := rows[|rows| - 1];
      if last.category == category then rest else rest + [last]
  }

  /** What `all(category)` builds: name to value for the category's rows, a
      later row overwriting an earlier one of the same name. */
  function CategoryMap(rows: seq<AttrRow>, category: string): map<string, Json> {
    if rows == [] then map[]
    else
      var m := CategoryMap(rows[..|rows| - 1], category);
      var last := rows[|rows| - 1];
      if last.category == category then m[last.name := last.value] else m
  }

  /** The first row for the pair is at `i`. */
  lemma FindAt(rows: seq<AttrRow>, category: string, name: string, i: nat)
    requires i < |rows| && rows[i].category == category && rows[i].name == name
    requires forall k :: 0 <= k < i ==> !(rows[k].category == category && rows[k].name == name)
    ensures Find(rows, category, name) == Some(i)
  {
  }

  /** No row holds the pair. */
  lemma FindNone(rows: seq<AttrRow>, category: string, name: string)
    requires forall k :: 0 <= k < |rows| ==> !(rows[k].category == category && rows[k].name == name)
    ensures Find(rows, category, name) == None
  {
  }

  /** Finding in a table one row longer. */
  lemma FindSnoc(init: seq<AttrRow>, last: AttrRow, category: string, name: string)
    ensures Find(init + [last], category, name)
      == if Find(init, category, name).Some? then Find(init, category, name)
         else if last.category == category && last.name == name then Some(|init|)
         else None
  {
    var rows := init + [last];
    if Find(init, category, name).Some? {
      var j := Find(init, category, name).value;
      FindAt(rows, category, name, j);
    } else if last.category == category && last.name == name {
      FindAt(rows, category, name, |init|);
    } else {
      FindNone(rows, category, name);
    }
  }

  /** `add` makes `get` answer the new value for the pair and changes no other
      pair. */
  lemma AddedLookup(rows: seq<AttrRow>, category: string, name: string, value: Json, c: string, n: string)
    ensures Lookup(Added(rows, category, name, value), c, n)
      == if c == category && n == name then Some(value) else Lookup(rows, c, n)
  {
    var after := Added(rows, category, name, value);
    match Find(rows, category, name)
    case Some(i) =>
      if Find(rows, c, n).Some? {
        FindAt(after, c, n, Find(rows, c, n).value);
      } else {
        FindNone(after, c, n);
      }
    case None =>
      FindSnoc(rows, AttrRow(category, name, value), c, n);
  }

  /** `add` keeps one row per pair. */
  lemma AddedKeepsUnique(rows: seq<AttrRow>, category: string, name: string, value: Json)
    requires Unique(rows)
    ensures Unique(Added(rows, category, name, value))
  {
  }

  /** The table after removing the row at `i`, read row by row. */
  lemma RemovedRows(rows: seq<AttrRow>, i: nat)
    requires i < |rows|
    ensures |rows[..i] + rows[i + 1..]| == |rows| - 1
    ensures forall k :: 0 <= k < |rows| - 1 ==> (rows[..i] + rows[i + 1..])[k] == (if k < i then rows[k] else rows[k + 1])
  {
  }

  /** `remove` keeps one row per pair, and removing an absent pair changes
      nothing. */
  lemma RemovedKeepsUnique(rows: seq<AttrRow>, category: string, name: string)
    requires Unique(rows)
    ensures Unique(Removed(rows, category, name))
    ensures Lookup(rows, category, name).None? ==> Removed(rows, category, name) == rows
  {
    if Find(rows, category, name).Some? {
      RemovedRows(rows, Find(rows, category, name).value);
    }
  }

  /** After `remove`, `get` no longer finds the pair, and every other pair is
      untouched. */
  lemma RemovedLookup(rows: seq<AttrRow>, category: string, name: string, c: string, n: string)
    requires Unique(rows)
    ensures Lookup(Removed(rows, category, name), c, n)
      == if c == category && n == name then None else Lookup(rows, c, n)
  {
    var after := Removed(rows, category, name);
    if Find(rows, category, name).Some? {
      var i := Find(rows, category, name).value;
      RemovedRows(rows, i);
      if c == category && n == name {
        FindNone(after, c, n);
      } else if Find(rows, c, n).Some? {
        var j := Find(rows, c, n).value;
        FindAt(after, c, n, if j < i then j else j - 1);
      } else {
        FindNone(after, c, n);
      }
    }
  }

  /** `clear(category)` empties that category and leaves every other one as it
      was. */
  lemma {:induction false} ClearedLookup(rows: seq<AttrRow>, category: string, c: string, n: string)
    ensures Lookup(Cleared(rows, category), c, n) == if c == category then None else Lookup(rows, c, n)
  {
    if rows != [] {
      var init := rows[..|rows| - 1];
      var last := rows[|rows| - 1];
      ClearedLookup(init, category, c, n);
      var rest := Cleared(init, category);
      assert rows == init + [last];
      FindSnoc(init, last, c, n);
      FindSnoc(rest, last, c, n);
      assert rest + [last] == Cleared(rows, category) || rest == Cleared(rows, category);
    }
  }

  /** `clear` keeps one row per pair. */
  lemma {:induction false} ClearedKeepsUnique(rows: seq<AttrRow>, category: string)
    requires Unique(rows)
    ensures Unique(Cleared(rows, category))
    ensures forall k :: 0 <= k < |Cleared(rows, category)| ==> Cleared(rows, category)[k] in rows
  {
    if rows != [] {
      var init := rows[..|rows| - 1];
      var last := rows[|rows| - 1];
      ClearedKeepsUnique(init, category);
      var rest := Cleared(init, category);
      if last.category != category {
        forall k | 0 <= k < |rest|
          ensures (rest[k].category, rest[k].name) != (last.category, last.name)
        {
          assert rest[k] in init;
        }
      }
    }
  }

  /** With one row per pair, `all(category)` holds exactly the names the
      category has, each with the value `get` answers. */
  lemma {:induction false} CategoryMapIsLookup(rows: seq<AttrRow>, category: string, n: string)
    requires Unique(rows)
    ensures n in CategoryMap(rows, category) <==> Lookup(rows, category, n).Some?
    ensures n in CategoryMap(rows, category) ==> CategoryMap(rows, category)[n] == Lookup(rows, category, n).value
  {
    if rows != [] {
      var init := rows[..|rows| - 1];
      var last := rows[|rows| - 1];
      assert Unique(init);
      CategoryMapIsLookup(init, category, n);
      assert rows == init + [last];
      FindSnoc(init, last, category, n);
      if Find(init, category, n).Some? {
        var j := Find(init, category, n).value;
        assert rows[j] == init[j];
      }
    }
  }

  /** The attribute handler of one object: its table of rows. */
  class AttributeHandler {
    var rows: seq<AttrRow>

    constructor (rows: seq<AttrRow>)
      ensures this.rows == rows
    {
      this.rows := rows;
    }

    predicate Valid()
      reads this
    {
      Unique(rows)
    }

    /** `get(key, default, category)`. */
    method Get(key: string, default: Json := JNull, category: string := "") returns (v: Json)
      ensures v == (if Lookup(rows, category, key).Some? then Lookup(rows, category, key).value else default)
    {
      var found := Find(rows, category, key);
      if found.Some? {
        return rows[found.value].value;
      }
      return default;
    }

    /** `add(key, value, category)`: the row of the pair is updated in place,
        or a new row is created. */
    method Add(key: string, value: Json, category: string := "")
      requires Valid()
      modifies this
      ensures Valid()
      ensures rows == Added(old(rows), category, key, value)
    {
      AddedKeepsUnique(rows, category, key, value);
      var found := Find(rows, category, key);
      if found.Some? {
        rows := rows[found.value := rows[found.value].(value := value)];
      } else {
        rows := rows + [AttrRow(category, key, value)];
      }
    }

    /** `remove(key, category)`. */
    method Remove(key: string, category: string := "")
      requires Valid()
      modifies this
      ensures Valid()
      ensures rows == Removed(old(rows), category, key)
    {
      RemovedKeepsUnique(rows, category, key);
      var found := Find(rows, category, key);
      if found.Some? {
        rows := rows[..found.value] + rows[found.value + 1..];
      }
    }

    /** `clear(category)`. */
    method Clear(category: string := "")
      requires Valid()
      modifies this
      ensures Valid()
      ensures rows == Cleared(old(rows), category)
    {
      ClearedKeepsUnique(rows, category);
      rows := Cleared(rows, category);
    }

    /** `all(category)`: the loop over the category's rows, each writing its
        name. */
    method All(category: string := "") returns (out: map<string, Json>)
      ensures out == CategoryMap(rows, category)
    {
      out := map[];
      var i := 0;
      while i < |rows|
        invariant 0 <= i <= |rows|
        invariant out == CategoryMap(rows[..i], category)
      {
        assert rows[..i + 1][..i] == rows[..i];
        if rows[i].category == category {
          out := out[rows[i].name := rows[i].value];
        }
        i := i + 1;
      }
      assert rows[..|rows|] == rows;
    }
  }
}
