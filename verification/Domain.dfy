/** The database entities shared by the services: the enumerations of the
    schema, the farm row, and the animal table keyed by its unique
    (farm, ear tag) pair. */
module Domain {
  import opened Wrappers

  datatype Species = Cattle | Sheep | Goat | Pig | Poultry | Horse | Deer | Camel

  /** The enumeration literal stored in the database. */
  function SpeciesName(s: Species): string {
    match s
    case Cattle => "CATTLE"
    case Sheep => "SHEEP"
    case Goat => "GOAT"
    case Pig => "PIG"
    case Poultry => "POULTRY"
    case Horse => "HORSE"
    case Deer => "DEER"
    case Camel => "CAMEL"
  }

  /** The database's check of a string cast to the species enumeration. */
  function ParseSpecies(name: string): (r: Option<Species>)
    ensures r.Some? ==> SpeciesName(r.value) == name
    ensures r.None? ==> forall s: Species :: SpeciesName(s) != name
  {
    if name == "CATTLE" then Some(Cattle)
    else if name == "SHEEP" then Some(Sheep)
    else if name == "GOAT" then Some(Goat)
    else if name == "PIG" then Some(Pig)
    else if name == "POULTRY" then Some(Poultry)
    else if name == "HORSE" then Some(Horse)
    else if name == "DEER" then Some(Deer)
    else if name == "CAMEL" then Some(Camel)
    else None
  }

  lemma ParseSpeciesName(s: Species)
    ensures ParseSpecies(SpeciesName(s)) == Some(s)
  {
  }

  datatype Gender = Male | Female

  function GenderName(g: Gender): string {
    match g
    case Male => "MALE"
    case Female => "FEMALE"
  }

  datatype AnimalStatus = Active | Deceased | Sold | Slaughtered

  datatype SyncStatus = SyncPending | InProgress | Completed | Failed

  function SyncStatusName(s: SyncStatus): string {
    match s
    case SyncPending => "PENDING"
    case InProgress => "IN_PROGRESS"
    case Completed => "COMPLETED"
    case Failed => "FAILED"
  }

  datatype DocumentType = BirthReport | DeathReport | TransferReport | SlaughterReport | DisposalReport

  function DocumentTypeName(t: DocumentType): string {
    match t
    case BirthReport => "BIRTH_REPORT"
    case DeathReport => "DEATH_REPORT"
    case TransferReport => "TRANSFER_REPORT"
    case SlaughterReport => "SLAUGHTER_REPORT"
    case DisposalReport => "DISPOSAL_REPORT"
  }

  datatype DocumentStatus = Draft | Pending | Submitted | Accepted | Rejected | Error

  /** A farm row together with its owner's registry credentials. */
  datatype Farm = Farm(
    userId: string,
    producerNumber: string,
    herdNumber: string,
    name: Option<string>,
    syncStatus: SyncStatus,
    lastSyncAt: Option<int>,
    irzLogin: Option<string>,
    irzPassEnc: Option<string>)

  /** The unique key of the animal table: no two animals of one farm share
      an ear tag. */
  datatype AnimalKey = AnimalKey(farmId: string, earTagNumber: string)

  /** An animal row; dates are kept as the text they were supplied in and
      `syncedAt` as milliseconds since the epoch. */
  datatype Animal = Animal(
    irzId: Option<string>,
    species: Species,
    breed: Option<string>,
    gender: Gender,
    birthDate: Option<string>,
    motherEarTag: Option<string>,
    status: AnimalStatus,
    syncedAt: Option<int>)

  type AnimalStore = map<AnimalKey, Animal>

  /** The store agrees with `before` on every key except those in `keys`. */
  ghost predicate UnchangedOutside(before: AnimalStore, after: AnimalStore, keys: set<AnimalKey>) {
    forall k :: k !in keys ==> ((k in before <==> k in after) && (k in before ==> before[k] == after[k]))
  }
}
