/** The in-memory voyage repository, seeded with eight sample voyages and
    read-only afterwards. */
module VoyageRepository {
  import opened Wrappers
  import opened Shipping

  /** A vessel voyage from one location to another. The samples carry no
      times, so theirs are the zero time. */
  datatype CarrierMovement = CarrierMovement(
    departureLocation: UNLocode,
    arrivalLocation: UNLocode,
    departureTime: Time,
    arrivalTime: Time)

  datatype Voyage = Voyage(voyageNumber: VoyageNumber, schedule: seq<CarrierMovement>)

  function Move(from: UNLocode, to: UNLocode): CarrierMovement {
    CarrierMovement(from, to, ZeroTime, ZeroTime)
  }

  const V100 := Voyage("V100", [Move("CNHKG", "JNTKO"), Move("JNTKO", "USNYC")])
  const V300 := Voyage("V300", [Move("JNTKO", "NLRTM"), Move("NLRTM", "DEHAM"),
                                Move("DEHAM", "AUMEL"), Move("AUMEL", "JNTKO")])
  const V400 := Voyage("V400", [Move("DEHAM", "SESTO"), Move("SESTO", "FIHEL"), Move("FIHEL", "DEHAM")])
  const V0100S := Voyage("0100S", [])
  const V0200T := Voyage("0200T", [])
  const V0300A := Voyage("0300A", [])
  const V0301S := Voyage("0301S", [])
  const V0400S := Voyage("0400S", [])

  type Repo = map<VoyageNumber, Voyage>

  /** `NewVoyageRepository`: exactly the eight samples, each keyed by its own
      voyage number. */
  function NewVoyageRepository(): (r: Repo)
    ensures r.Keys == {"V100", "V300", "V400", "0100S", "0200T", "0300A", "0301S", "0400S"}
    ensures forall n :: n in r ==> r[n].voyageNumber == n
  {
    map[
      V100.voyageNumber := V100,
      V300.voyageNumber := V300,
      V400.voyageNumber := V400,
      V0100S.voyageNumber := V0100S,
      V0200T.voyageNumber := V0200T,
      V0300A.voyageNumber := V0300A,
      V0301S.voyageNumber := V0301S,
      V0400S.voyageNumber := V0400S]
  }

  function Find(r: Repo, n: VoyageNumber): (res: Result<Voyage, Error>)
    ensures res.Success? <==> n in r
    ensures res.Success? ==> res.value == r[n]
    ensures res.Failure? ==> res.error == ErrUnknownVoyage
  {
    if n in r then Success(r[n]) else Failure(ErrUnknownVoyage)
  }

  /** A seeded voyage number finds the voyage with that number, and every
      other number is unknown. */
  lemma FindSeeded(n: VoyageNumber)
    ensures var res := Find(NewVoyageRepository(), n);
      && (n in NewVoyageRepository() ==> res.Success? && res.value.voyageNumber == n)
      && (n !in {"V100", "V300", "V400", "0100S", "0200T", "0300A", "0301S", "0400S"} ==>
            res == Failure(ErrUnknownVoyage))
  {
  }
}
