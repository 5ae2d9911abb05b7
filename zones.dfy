/** A zone: the place objects are in. It answers which objects share it with a
    given one, renders a location to an object's playview, and records which
    zone an object is in. */
module Zones {
  import opened Wrappers

  /** An object, by its database id. */
  type ObjId = int

  /** One message of a batch sent to a playview. */
  datatype Sendable = Sendable(text: string)

  /** `get_neighbors(obj)`: the zone's contents, in the order the query gives
      them, without `obj` itself. */
  function Neighbors(contents: seq<ObjId>, obj: ObjId): seq<ObjId> {
    if contents == [] then []
    else (if contents[0] == obj then [] else [contents[0]]) + Neighbors(contents[1..], obj)
  }

  /** The objects among `xs` that the viewer detects, in order; `detects` is
      what `can_detect` answers for each object. */
  function Detected(xs: seq<ObjId>, detects: set<ObjId>): seq<ObjId> {
    if xs == [] then []
    else (if xs[0] in detects then [xs[0]] else []) + Detected(xs[1..], detects)
  }

  /** `get_visible_neighbors(obj)`. */
  function VisibleNeighbors(contents: seq<ObjId>, obj: ObjId, detects: set<ObjId>): seq<ObjId> {
    Detected(Neighbors(contents, obj), detects)
  }

  /** The neighbours are exactly the other objects of the zone, none of them
      more often than in the contents. */
  lemma {:induction false} NeighborsMembers(contents: seq<ObjId>, obj: ObjId)
    ensures forall x :: x in Neighbors(contents, obj) <==> x in contents && x != obj
    ensures |Neighbors(contents, obj)| <= |contents|
    ensures obj in contents ==> |Neighbors(contents, obj)| < |contents|
  {
    if contents != [] {
      NeighborsMembers(contents[1..], obj);
      assert contents == [contents[0]] + contents[1..];
    }
  }

  /** The neighbours keep the contents' order: filtering splits over a split
      of the contents. */
  lemma {:induction false} NeighborsAppend(a: seq<ObjId>, b: seq<ObjId>, obj: ObjId)
    ensures Neighbors(a + b, obj) == Neighbors(a, obj) + Neighbors(b, obj)
  {
    if a == [] {
      assert a + b == b;
    } else {
      var h := if a[0] == obj then [] else [a[0]];
      assert (a + b)[0] == a[0];
      assert (a + b)[1..] == a[1..] + b;
      assert Neighbors(a + b, obj) == h + Neighbors(a[1..] + b, obj);
      NeighborsAppend(a[1..], b, obj);
      assert Neighbors(a, obj) == h + Neighbors(a[1..], obj);
      IdsAssoc(h, Neighbors(a[1..], obj), Neighbors(b, obj));
    }
  }

  lemma IdsAssoc(a: seq<ObjId>, b: seq<ObjId>, c: seq<ObjId>)
    ensures (a + b) + c == a + (b + c)
  {
  }

  /** An object not in the zone sees the zone's whole contents. */
  lemma {:induction false} NeighborsOfOutsider(contents: seq<ObjId>, obj: ObjId)
    requires obj !in contents
    ensures Neighbors(contents, obj) == contents
  {
    if contents != [] {
      NeighborsOfOutsider(contents[1..], obj);
      assert contents == [contents[0]] + contents[1..];
    }
  }

  /** The visible neighbours are exactly the neighbours the object detects. */
  lemma {:induction false} DetectedMembers(xs: seq<ObjId>, detects: set<ObjId>)
    ensures forall x :: x in Detected(xs, detects) <==> x in xs && x in detects
    ensures |Detected(xs, detects)| <= |xs|
  {
    if xs != [] {
      DetectedMembers(xs[1..], detects);
      assert xs == [xs[0]] + xs[1..];
    }
  }

  /** Detection keeps the order of the neighbours. */
  lemma {:induction false} DetectedAppend(a: seq<ObjId>, b: seq<ObjId>, detects: set<ObjId>)
    ensures Detected(a + b, detects) == Detected(a, detects) + Detected(b, detects)
  {
    if a == [] {
      assert a + b == b;
    } else {
      var h := if a[0] in detects then [a[0]] else [];
      assert (a + b)[0] == a[0];
      assert (a + b)[1..] == a[1..] + b;
      assert Detected(a + b, detects) == h + Detected(a[1..] + b, detects);
      DetectedAppend(a[1..], b, detects);
      assert Detected(a, detects) == h + Detected(a[1..], detects);
      IdsAssoc(h, Detected(a[1..], detects), Detected(b, detects));
    }
  }

  /** An object that detects everything sees every neighbour. */
  lemma {:induction false} DetectAll(xs: seq<ObjId>, detects: set<ObjId>)
    requires forall i :: 0 <= i < |xs| ==> xs[i] in detects
    ensures Detected(xs, detects) == xs
  {
    if xs != [] {
      assert xs[0] in detects;
      assert forall i :: 0 <= i < |xs| - 1 ==> xs[1..][i] == xs[i + 1];
      DetectAll(xs[1..], detects);
      assert xs == [xs[0]] + xs[1..];
    }
  }

  /** A visible neighbour is another object of the zone that the viewer
      detects, and every such object is visible; the visible list never
      includes the viewer. */
  lemma VisibleNeighborsMembers(contents: seq<ObjId>, obj: ObjId, detects: set<ObjId>, x: ObjId)
    ensures x in VisibleNeighbors(contents, obj, detects) <==> x in contents && x != obj && x in detects
    ensures obj !in VisibleNeighbors(contents, obj, detects)
  {
    NeighborsMembers(contents, obj);
    DetectedMembers(Neighbors(contents, obj), detects);
  }

  /** The object `render_location` renders for: its playview, when it has one,
      is where batches go. */
  class Playview {
    var sent: seq<seq<Sendable>>

    constructor ()
      ensures sent == []
    {
      sent := [];
    }

    /** `send(sendables)`. */
    method Send(batch: seq<Sendable>)
      modifies this
      ensures sent == old(sent) + [batch]
    {
      sent := sent + [batch];
    }
  }

  /** An object as the zone sees it: the zone it is in and the saves made of
      it, each listing the fields it wrote. */
  class Thing {
    const id: ObjId
    var inZone: Option<ObjId>
    var saves: seq<seq<string>>

    constructor (id: ObjId, inZone: Option<ObjId>)
      ensures this.id == id && this.inZone == inZone && saves == []
    {
      this.id := id;
      this.inZone := inZone;
      saves := [];
    }
  }

  class Zone {
    const id: ObjId

    constructor (id: ObjId)
      ensures this.id == id
    {
      this.id := id;
    }

    /** The batch `render_location` builds: what the header, description and
        contents renderers add, in that order. */
    static function Batch(header: seq<Sendable>, description: seq<Sendable>, contents: seq<Sendable>): (b: seq<Sendable>)
      ensures |b| == |header| + |description| + |contents|
      ensures b[..|header|] == header
      ensures b[|header|..|header| + |description|] == description
      ensures b[|header| + |description|..] == contents
    {
      header + description + contents
    }

    /** `render_location(obj)`, the three renderers' output given as
        parameters: nothing happens without a playview, and the batch is sent
        once, and only when some renderer added to it. */
    method RenderLocation(playview: Option<Playview>, header: seq<Sendable>, description: seq<Sendable>, contents: seq<Sendable>)
      modifies if playview.Some? then {playview.value} else {}
      ensures playview.Some? ==>
        playview.value.sent == old(playview.value.sent)
          + (if Batch(header, description, contents) == [] then [] else [Batch(header, description, contents)])
    {
      if playview.None? {
        return;
      }
      var play := playview.value;
      var sendables: seq<Sendable> := [];
      sendables := sendables + header;
      sendables := sendables + description;
      sendables := sendables + contents;
      assert sendables == Batch(header, description, contents);
      if sendables != [] {
        play.Send(sendables);
      }
    }

    /** `add_obj(obj)`: the object is now in this zone, and only that field
        is saved. */
    method AddObj(obj: Thing)
      modifies obj
      ensures obj.inZone == Some(id)
      ensures obj.saves == old(obj.saves) + [["in_zone"]]
    {
      obj.inZone := Some(id);
      obj.saves := obj.saves + [["in_zone"]];
    }

    /** `remove_obj(obj)`: the object is in no zone, and only that field is
        saved. */
    method RemoveObj(obj: Thing)
      modifies obj
      ensures obj.inZone == None
      ensures obj.saves == old(obj.saves) + [["in_zone"]]
    {
      obj.inZone := None;
      obj.saves := obj.saves + [["in_zone"]];
    }
  }

  /** The batch is empty iff every renderer added nothing, so a single
      sendable from any renderer is sent, and with the zone's own renderers,
      which add nothing, `render_location` sends nothing. */
  lemma BatchEmptyIff(header: seq<Sendable>, description: seq<Sendable>, contents: seq<Sendable>)
    ensures Zone.Batch(header, description, contents) == [] <==> header == [] && description == [] && contents == []
  {
  }
}
