/** The host document both backends act on, and the geometry kernel they share. */
module Host {
  import opened Wrappers
  import opened Values
  import opened Operations

  // Primitives are concrete so that the box and sphere rewriting can be compared; everything the
  // geometry kernel computes from them is a token.
  datatype Geometry =
    | PointGeometry(p: Vec3)
    | LineGeometry(a: Vec3, b: Vec3)
    | PolylineGeometry(points: seq<Vec3>)
    | BoxGeometry(low: Vec3, high: Vec3)
    | SphereGeometry(center: Vec3, radius: real)
    | Computed(token: int)

  datatype Attributes = Attributes(name: string, layer: string, color: Option<seq<int>>, material: Option<int>)

  datatype Object = Object(geometry: Geometry, attributes: Attributes)

  datatype Combination = Union | Intersection | Difference

  /** The geometry functions, GUID parsing and the fresh-id supply, all left uninterpreted. */
  datatype Kernel = Kernel(
    canon: string -> string,
    supply: nat -> string,
    transform: (Geometry, Motion, Vec3) -> Option<Geometry>,
    moved: (Geometry, Vec3) -> Geometry,
    extrude: (Geometry, Vec3, bool) -> Option<Geometry>,
    offset: (Geometry, real, Vec3) -> seq<Geometry>,
    combine: (Combination, seq<Geometry>, seq<Geometry>) -> seq<Geometry>,
    defaults: Attributes
  )

  datatype Document = Document(objects: map<string, Object>, layers: set<string>, next: nat)

  /** Ids print canonically, are never empty, and the supply never repeats one. */
  ghost predicate ValidKernel(k: Kernel) {
    && (forall s :: k.canon(k.canon(s)) == k.canon(s))
    && (forall s :: k.canon(s) != "")
    && (forall n :: k.canon(k.supply(n)) == k.supply(n))
    && (forall m, n :: k.supply(m) == k.supply(n) ==> m == n)
  }

  /** No id still to be handed out names an object of the document. */
  ghost predicate ValidDocument(k: Kernel, doc: Document) {
    && (forall n :: n >= doc.next ==> k.supply(n) !in doc.objects)
    && (forall id :: id in doc.objects ==> k.canon(id) == id)
  }

  function AddObject(k: Kernel, doc: Document, geometry: Geometry, attributes: Attributes): (Document, string) {
    var id := k.supply(doc.next);
    (doc.(objects := doc.objects[id := Object(geometry, attributes)], next := doc.next + 1), id)
  }

  function AddObjects(k: Kernel, doc: Document, pieces: seq<Geometry>): (Document, seq<string>)
    decreases |pieces|
  {
    if pieces == [] then (doc, []) else
    var (added, id) := AddObject(k, doc, pieces[0], k.defaults);
    var (rest, ids) := AddObjects(k, added, pieces[1..]);
    (rest, [id] + ids)
  }

  function RemoveObject(doc: Document, id: string): Document {
    doc.(objects := doc.objects - {id})
  }

  /** Delete each id that is still there; the ids actually deleted are reported. */
  function DeleteEach(doc: Document, ids: seq<string>): (Document, seq<string>)
    decreases |ids|
  {
    if ids == [] then (doc, [])
    else if ids[0] in doc.objects then
      var (rest, deleted) := DeleteEach(RemoveObject(doc, ids[0]), ids[1..]);
      (rest, [ids[0]] + deleted)
    else DeleteEach(doc, ids[1..])
  }

  function Geometries(doc: Document, ids: seq<string>): seq<Geometry>
    requires forall i :: 0 <= i < |ids| ==> ids[i] in doc.objects
  {
    seq(|ids|, i requires 0 <= i < |ids| => doc.objects[ids[i]].geometry)
  }

  lemma {:induction false} AddObjectsValid(k: Kernel, doc: Document, pieces: seq<Geometry>)
    requires ValidKernel(k) && ValidDocument(k, doc)
    ensures var (after, ids) := AddObjects(k, doc, pieces);
            && ValidDocument(k, after)
            && after.next == doc.next + |pieces| && |ids| == |pieces|
            && (forall i :: 0 <= i < |ids| ==> ids[i] == k.supply(doc.next + i))
            && (forall id :: id in after.objects <==> id in doc.objects || id in ids)
            && (forall id :: id in doc.objects ==> after.objects[id] == doc.objects[id])
    decreases |pieces|
  {
    if pieces != [] {
      var (added, id) := AddObject(k, doc, pieces[0], k.defaults);
      AddObjectsValid(k, added, pieces[1..]);
      var (after, ids) := AddObjects(k, added, pieces[1..]);
      forall i | 0 < i < |ids| + 1 ensures ([id] + ids)[i] == k.supply(doc.next + i) {
        assert ([id] + ids)[i] == ids[i - 1];
      }
    }
  }
}
