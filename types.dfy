/** The record types shared by the store, the pages and the simulation engine. */
module DosageTypes {

  datatype Option<+T> = None | Some(value: T)

  /** The three release mechanisms a dosage form can declare. */
  datatype ReleaseType = Immediate | Extended | Controlled

  datatype RouteOfAdministration = Oral | Injection | Topical | Inhalation | Sublingual | Transdermal

  /** A point in time, as milliseconds since the Unix epoch. */
  type Timestamp = int

  /** One catalogue record. The field `type` of the source is `formType` here,
      because `type` is a keyword of Dafny. */
  datatype DosageForm = DosageForm(
    id: string,
    name: string,
    formType: string,
    activeIngredients: seq<string>,
    strength: string,
    releaseType: ReleaseType,
    routeOfAdministration: RouteOfAdministration,
    description: string,
    createdAt: Timestamp,
    updatedAt: Timestamp)

  /** Three parallel series, the i-th entries describing the state at time[i]. */
  datatype SimulationResult = SimulationResult(
    time: seq<real>,
    concentration: seq<real>,
    cumulativeRelease: seq<real>)

  /** The string tag of a release type, as the source stores it. */
  function ReleaseTypeName(k: ReleaseType): (s: string)
    ensures s in {"immediate", "extended", "controlled"}
    ensures s != "all"
  {
    match k
    case Immediate => "immediate"
    case Extended => "extended"
    case Controlled => "controlled"
  }

  /** Distinct release types have distinct tags. */
  lemma ReleaseTypeNameInjective(a: ReleaseType, b: ReleaseType)
    ensures ReleaseTypeName(a) == ReleaseTypeName(b) <==> a == b
  {
  }
}
