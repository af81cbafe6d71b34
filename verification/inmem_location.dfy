/** The in-memory location repository, seeded with six sample locations and
    read-only afterwards. */
module LocationRepository {
  import opened Wrappers
  import opened Shipping
  import Collections

  datatype Location = Location(unLocode: UNLocode, name: string)

  const Stockholm := Location("SESTO", "Stockholm")
  const Melbourne := Location("AUMEL", "Melbourne")
  const Hongkong := Location("CNHKG", "Hongkong")
  const Tokyo := Location("JNTKO", "Tokyo")
  const Rotterdam := Location("NLRTM", "Rotterdam")
  const Hamburg := Location("DEHAM", "Hamburg")

  type Repo = map<UNLocode, Location>

  /** `NewLocationRepository`: exactly the six samples, each under its own
      locode. */
  function NewLocationRepository(): (r: Repo)
    ensures r.Keys == {"SESTO", "AUMEL", "CNHKG", "JNTKO", "NLRTM", "DEHAM"}
    ensures |r| == 6
    ensures forall l :: l in r ==> r[l].unLocode == l
    ensures r.Values == {Stockholm, Melbourne, Hongkong, Tokyo, Rotterdam, Hamburg}
  {
    map[
      Stockholm.unLocode := Stockholm,
      Melbourne.unLocode := Melbourne,
      Hongkong.unLocode := Hongkong,
      Tokyo.unLocode := Tokyo,
      Rotterdam.unLocode := Rotterdam,
      Hamburg.unLocode := Hamburg]
  }

  function Find(r: Repo, locode: UNLocode): (res: Result<Location, Error>)
    ensures res.Success? <==> locode in r
    ensures res.Success? ==> res.value == r[locode]
    ensures res.Failure? ==> res.error == ErrUnknownLocation
  {
    if locode in r then Success(r[locode]) else Failure(ErrUnknownLocation)
  }

  /** A seeded locode finds its sample location, and every other locode is
      unknown. */
  lemma FindSeeded(locode: UNLocode)
    ensures var res := Find(NewLocationRepository(), locode);
      && (locode in {"SESTO", "AUMEL", "CNHKG", "JNTKO", "NLRTM", "DEHAM"} ==>
            res.Success? && res.value.unLocode == locode)
      && (locode !in {"SESTO", "AUMEL", "CNHKG", "JNTKO", "NLRTM", "DEHAM"} ==>
            res == Failure(ErrUnknownLocation))
  {
  }

  /** Every stored location, once each, in unspecified order. */
  method FindAll(r: Repo) returns (ls: seq<Location>)
    ensures |ls| == |r|
    ensures exists codes :: Collections.IsEnumeration(r, codes, ls)
  {
    ls := Collections.Values(r);
    ghost var codes :| Collections.IsEnumeration(r, codes, ls);
    Collections.EnumerationSize(r, codes, ls);
  }
}
