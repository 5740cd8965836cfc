/** The circuit store: add and update by uid on the circuits table, and lookup. */
module CircuitStore {
  import opened Types
  import opened Seqs
  import opened Database

  function CircuitHasUid(uid: string): Circuit -> bool {
    (c: Circuit) => c.uid == uid
  }

  /** getCircuitByUid: the first circuit with that uid, or none. */
  function GetCircuitByUid(cs: seq<Circuit>, uid: string): (r: Option<Circuit>)
    ensures r.None? <==> forall i :: 0 <= i < |cs| ==> cs[i].uid != uid
    ensures r.Some? ==> exists i :: 0 <= i < |cs| && r.value == cs[i] && cs[i].uid == uid
                          && forall j :: 0 <= j < i ==> cs[j].uid != uid
  {
    FindIsFirst(cs, CircuitHasUid(uid));
    Find(cs, CircuitHasUid(uid))
  }

  /** { ...data, uid, createdAt } */
  function StampedCircuit(data: Circuit, uid: string, stamp: string): (r: Circuit)
    ensures r.uid == uid && r.createdAt == stamp
    ensures r.(uid := data.uid, createdAt := data.createdAt) == data
  {
    data.(uid := uid, createdAt := stamp)
  }

  /** After an add with a fresh uid, looking the uid up returns the new circuit. */
  lemma AddedCircuitIsFound(cs: seq<Circuit>, data: Circuit, uid: string, stamp: string)
    requires forall i :: 0 <= i < |cs| ==> cs[i].uid != uid
    ensures GetCircuitByUid(cs + [StampedCircuit(data, uid, stamp)], uid) == Some(StampedCircuit(data, uid, stamp))
  {
    var r := cs + [StampedCircuit(data, uid, stamp)];
    assert r[|cs|].uid == uid;
  }

  /** Partial<Circuit>: the fields a caller may change. */
  datatype CircuitPatch = CircuitPatch(
    name: Option<string>,
    country: Option<string>,
    subBranches: Option<Option<seq<string>>>,
    contactPerson: Option<Option<string>>,
    isActive: Option<bool>)

  /** { ...existing, ...data }: circuits carry no update stamp. */
  function MergeCircuit(c: Circuit, d: CircuitPatch): (r: Circuit)
    ensures r.uid == c.uid && r.createdAt == c.createdAt
    ensures r.name == d.name.GetOr(c.name) && r.country == d.country.GetOr(c.country)
    ensures r.subBranches == d.subBranches.GetOr(c.subBranches)
    ensures r.contactPerson == d.contactPerson.GetOr(c.contactPerson)
    ensures r.isActive == d.isActive.GetOr(c.isActive)
  {
    Circuit(c.uid, d.name.GetOr(c.name), d.country.GetOr(c.country), d.subBranches.GetOr(c.subBranches),
      d.contactPerson.GetOr(c.contactPerson), d.isActive.GetOr(c.isActive), c.createdAt)
  }

  /** The circuits after updateCircuit: only the first circuit with the uid changes. */
  function CircuitsUpdated(cs: seq<Circuit>, uid: string, d: CircuitPatch): (r: seq<Circuit>)
    ensures |r| == |cs|
    ensures FirstIndex(cs, CircuitHasUid(uid)).None? ==> r == cs
    ensures FirstIndex(cs, CircuitHasUid(uid)).Some? ==>
      var i := FirstIndex(cs, CircuitHasUid(uid)).value;
      r[i] == MergeCircuit(cs[i], d) && forall j :: 0 <= j < |cs| && j != i ==> r[j] == cs[j]
  {
    match FirstIndex(cs, CircuitHasUid(uid))
    case None => cs
    case Some(i) => cs[i := MergeCircuit(cs[i], d)]
  }

  method AddCircuit(db: Db, data: Circuit, uid: string, stamp: string)
    modifies db
    ensures db.Snapshot() == old(db.Snapshot()).(circuits := old(db.circuits) + [StampedCircuit(data, uid, stamp)])
  {
    db.circuits := db.circuits + [StampedCircuit(data, uid, stamp)];
  }

  method UpdateCircuit(db: Db, uid: string, d: CircuitPatch)
    modifies db
    ensures db.Snapshot() == old(db.Snapshot()).(circuits := CircuitsUpdated(old(db.circuits), uid, d))
  {
    var found := FirstIndex(db.circuits, CircuitHasUid(uid));
    if found.Some? {
      var i := found.value;
      db.circuits := db.circuits[i := MergeCircuit(db.circuits[i], d)];
    }
  }
}
