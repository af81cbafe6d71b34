/** The in-memory cargo repository: a map from tracking id to cargo. */
module CargoRepository {
  import opened Wrappers
  import opened Shipping
  import opened Cargos
  import Collections

  type Repo = map<TrackingId, Cargo>

  /** `NewCargoRepository`: no cargo stored. */
  const NewRepo: Repo := map[]

  /** Stores `c` under its own tracking id, replacing any cargo stored there;
      Go's result is always a nil error. */
  function Store(r: Repo, c: Cargo): (r': Repo)
    ensures Find(r', c.trackingId) == Success(c)
    ensures forall id :: id != c.trackingId ==> Find(r', id) == Find(r, id)
    ensures r'.Keys == r.Keys + {c.trackingId}
  {
    r[c.trackingId := c]
  }

  function Find(r: Repo, id: TrackingId): (res: Result<Cargo, Error>)
    ensures res.Success? <==> id in r
    ensures res.Success? ==> res.value == r[id]
    ensures res.Failure? ==> res.error == ErrUnknownCargo
  {
    if id in r then Success(r[id]) else Failure(ErrUnknownCargo)
  }

  /** Every cargo is stored under its own tracking id. `Store` is the only
      writer, so every repository built from `NewRepo` has this shape. */
  ghost predicate KeyedById(r: Repo) {
    forall id :: id in r ==> r[id].trackingId == id
  }

  lemma StoreKeepsKeyedById(r: Repo, c: Cargo)
    requires KeyedById(r)
    ensures KeyedById(Store(r, c))
  {
  }

  /** A fresh repository knows no tracking id. */
  lemma NewRepoIsEmpty(id: TrackingId)
    ensures Find(NewRepo, id) == Failure(ErrUnknownCargo)
  {
  }

  /** Every stored cargo, once each, in unspecified order. */
  method FindAll(r: Repo) returns (cs: seq<Cargo>)
    ensures |cs| == |r|
    ensures exists ids :: Collections.IsEnumeration(r, ids, cs)
  {
    cs := Collections.Values(r);
    ghost var ids :| Collections.IsEnumeration(r, ids, cs);
    Collections.EnumerationSize(r, ids, cs);
  }
}
