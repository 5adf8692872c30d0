/** The document service: the three report drafts and their side effects
    on the animal table, the submission state machine, and the choice of
    printer and file name for a document. */
module Documents {
  import opened Wrappers
  import opened Text
  import opened Domain
  import Pdf

  // ---------------------------------------------------------------------
  // Entities
  // ---------------------------------------------------------------------

  datatype DeathCause = Natural | Disease | Accident | Euthanasia | UnknownCause

  function DeathCauseName(c: DeathCause): string {
    match c
    case Natural => "NATURAL"
    case Disease => "DISEASE"
    case Accident => "ACCIDENT"
    case Euthanasia => "EUTHANASIA"
    case UnknownCause => "UNKNOWN"
  }

  datatype DisposalMethod = RenderingPlant | Burial | Veterinary

  function DisposalMethodName(m: DisposalMethod): string {
    match m
    case RenderingPlant => "RENDERING_PLANT"
    case Burial => "BURIAL"
    case Veterinary => "VETERINARY"
  }

  datatype Direction = In | Out

  function DirectionName(d: Direction): string {
    match d
    case In => "IN"
    case Out => "OUT"
  }

  /** What the registry answered, as stored on the document. */
  datatype IrzResponse = Registered(documentNumber: string) | Refused(message: string)

  /** A document row; `animal` is the key of the animal it reports on and
      `createdAt` is in milliseconds since the epoch. */
  datatype Document = Document(
    farmId: string,
    animal: Option<AnimalKey>,
    docType: DocumentType,
    status: DocumentStatus,
    formData: Pdf.FormData,
    irzDocNumber: Option<string>,
    submittedAt: Option<int>,
    irzResponse: Option<IrzResponse>,
    createdAt: int)

  datatype EventType = BirthEvent | TransferIn | TransferOut

  datatype AnimalEvent = AnimalEvent(animal: AnimalKey, eventType: EventType, eventDate: string, description: string)

  /** The tables the service reads and writes. */
  datatype Db = Db(
    farms: map<string, Farm>,
    animals: AnimalStore,
    documents: map<string, Document>,
    events: seq<AnimalEvent>)

  /** The foreign keys of the schema: every animal belongs to a farm, every
      document to a farm and (when it has one) to an animal of that farm,
      and every event to an animal. */
  ghost predicate Consistent(db: Db) {
    && (forall k :: k in db.animals ==> k.farmId in db.farms)
    && (forall id :: id in db.documents ==>
          db.documents[id].farmId in db.farms
          && (db.documents[id].animal.Some? ==>
                db.documents[id].animal.value in db.animals
                && db.documents[id].animal.value.farmId == db.documents[id].farmId))
    && (forall i :: 0 <= i < |db.events| ==> db.events[i].animal in db.animals)
  }

  /** The outcome of an operation: its result, and the tables after it. */
  datatype Step<T> = Step(result: Result<T, string>, db: Db)

  const DocumentNotFound := "Dokument nie znaleziony"
  const AnimalNotFound := "Zwierzę nie znalezione"
  const FarmNotFound := "Gospodarstwo nie znalezione"
  const AlreadySent := "Dokument został już wysłany"
  const EarTagTaken := "Zwierzę z tym numerem kolczyka już istnieje"
  const NoPrinter := "Generowanie PDF niedostępne dla tego typu dokumentu"

  /** `findOne`. */
  function FindOne(db: Db, id: string): (r: Result<Document, string>)
    ensures r.Ok? <==> id in db.documents
    ensures r.Ok? ==> r.value == db.documents[id]
    ensures r.Err? ==> r.error == DocumentNotFound
  {
    if id in db.documents then Ok(db.documents[id]) else Err(DocumentNotFound)
  }

  // ---------------------------------------------------------------------
  // Submission
  // ---------------------------------------------------------------------

  predicate Submittable(s: DocumentStatus) {
    s == Draft || s == Error
  }

  /** `submitToIrz`, with the outcome of the submission as an input: the
      registry's document number, or the message of the error raised. The
      document passes through PENDING; the visible end state is SUBMITTED
      or ERROR. */
  function SubmitToIrz(db: Db, id: string, outcome: Result<string, string>, now: int): (r: Step<string>)
    ensures r.result.Ok? <==> id in db.documents && Submittable(db.documents[id].status) && outcome.Ok?
    ensures r.db.farms == db.farms && r.db.animals == db.animals && r.db.events == db.events
    ensures r.db.documents.Keys == db.documents.Keys
    ensures forall other :: other in db.documents && other != id ==> r.db.documents[other] == db.documents[other]
    ensures id !in db.documents ==> r == Step(Err(DocumentNotFound), db)
    ensures id in db.documents && !Submittable(db.documents[id].status) ==> r == Step(Err(AlreadySent), db)
    ensures id in db.documents && Submittable(db.documents[id].status) ==>
      var before, after := db.documents[id], r.db.documents[id];
      && after.farmId == before.farmId && after.animal == before.animal && after.docType == before.docType
      && after.formData == before.formData && after.createdAt == before.createdAt
      && (outcome.Ok? ==>
            && r.result == Ok(outcome.value)
            && after.status == Submitted
            && after.irzDocNumber == Some(outcome.value)
            && after.submittedAt == Some(now)
            && after.irzResponse == Some(Registered(outcome.value)))
      && (outcome.Err? ==>
            && r.result == Err(outcome.error)
            && after.status == Error
            && after.irzDocNumber == before.irzDocNumber
            && after.submittedAt == before.submittedAt
            && after.irzResponse == Some(Refused(outcome.error)))
  {
    if id !in db.documents then Step(Err(DocumentNotFound), db)
    else
      var doc := db.documents[id];
      if !Submittable(doc.status) then Step(Err(AlreadySent), db)
      else
        var pending := doc.(status := Pending);
        match outcome
        case Ok(number) =>
          var sent := pending.(status := Submitted, irzDocNumber := Some(number), submittedAt := Some(now),
                               irzResponse := Some(Registered(number)));
          Step(Ok(number), db.(documents := db.documents[id := sent]))
        case Err(message) =>
          var failed := pending.(status := Error, irzResponse := Some(Refused(message)));
          Step(Err(message), db.(documents := db.documents[id := failed]))
  }

  /** A document is sent at most once: after a successful submission every
      further one is refused and changes nothing, whatever its outcome. */
  lemma SubmittedOnce(db: Db, id: string, number: string, later: Result<string, string>, now: int, now2: int)
    requires id in db.documents && Submittable(db.documents[id].status)
    ensures var first := SubmitToIrz(db, id, Ok(number), now);
            SubmitToIrz(first.db, id, later, now2) == Step(Err(AlreadySent), first.db)
  {
  }

  /** A failed submission can be retried: the document is back in a state
      the service accepts. */
  lemma FailedSubmissionRetryable(db: Db, id: string, message: string, later: Result<string, string>, now: int, now2: int)
    requires id in db.documents && Submittable(db.documents[id].status)
    ensures var first := SubmitToIrz(db, id, Err(message), now);
            SubmitToIrz(first.db, id, later, now2).result.Ok? <==> later.Ok?
  {
  }

  /** Submission keeps the foreign keys. */
  lemma SubmitKeepsConsistent(db: Db, id: string, outcome: Result<string, string>, now: int)
    requires Consistent(db)
    ensures Consistent(SubmitToIrz(db, id, outcome, now).db)
  {
  }

  // ---------------------------------------------------------------------
  // Death report
  // ---------------------------------------------------------------------

  datatype DeathReportDto = DeathReportDto(
    animal: AnimalKey,
    deathDate: string,
    deathCause: DeathCause,
    deathPlace: Option<string>,
    disposalMethod: DisposalMethod)

  const DefaultDeathPlace := "GOSPODARSTWO"

  /** A form field that is null or absent is not stored. */
  function OptionalField(key: string, v: Option<string>): (r: Pdf.FormData)
    ensures v.Some? <==> key in r
    ensures r.Keys <= {key}
    ensures v.Some? ==> r[key] == v.value
  {
    if v.Some? then map[key := v.value] else map[]
  }

  /** The form data of a death report. */
  function DeathFormData(dto: DeathReportDto, a: Animal, farm: Farm): Pdf.FormData {
    map["earTagNumber" := dto.animal.earTagNumber,
        "species" := SpeciesName(a.species),
        "deathDate" := dto.deathDate,
        "deathCause" := DeathCauseName(dto.deathCause),
        "deathPlace" := OrElse(dto.deathPlace, DefaultDeathPlace),
        "disposalMethod" := DisposalMethodName(dto.disposalMethod),
        "producerNumber" := farm.producerNumber,
        "herdNumber" := farm.herdNumber]
    + OptionalField("breed", a.breed)
  }

  lemma DeathFormFields(dto: DeathReportDto, a: Animal, farm: Farm, fd: Pdf.FormData)
    requires fd == DeathFormData(dto, a, farm)
    ensures Pdf.Field(fd, "earTagNumber") == Some(dto.animal.earTagNumber)
    ensures Pdf.Field(fd, "species") == Some(SpeciesName(a.species))
    ensures Pdf.Field(fd, "deathCause") == Some(DeathCauseName(dto.deathCause))
    ensures Pdf.Field(fd, "deathPlace") == Some(OrElse(dto.deathPlace, DefaultDeathPlace))
    ensures Pdf.Field(fd, "disposalMethod") == Some(DisposalMethodName(dto.disposalMethod))
    ensures Pdf.Field(fd, "breed") == a.breed
    ensures Pdf.Field(fd, "producerNumber") == Some(farm.producerNumber)
  {
  }

  /** `createDeathReport`, with the new document's id as an input: a DRAFT
      death report, and the animal marked deceased. */
  function CreateDeathReport(db: Db, dto: DeathReportDto, docId: string, now: int): (r: Step<string>)
    requires Consistent(db) && docId !in db.documents
    ensures r.result.Ok? <==> dto.animal in db.animals
    ensures r.result.Err? ==> r == Step(Err(AnimalNotFound), db)
    ensures r.result.Ok? ==>
      var k := dto.animal;
      && r.result.value == docId
      && r.db.farms == db.farms && r.db.events == db.events
      && r.db.documents.Keys == db.documents.Keys + {docId}
      && (forall id :: id in db.documents ==> r.db.documents[id] == db.documents[id])
      && r.db.documents[docId].docType == DeathReport
      && r.db.documents[docId].status == Draft
      && r.db.documents[docId].animal == Some(k)
      && r.db.documents[docId].farmId == k.farmId
      && r.db.documents[docId].irzDocNumber.None?
      && r.db.animals.Keys == db.animals.Keys
      && r.db.animals[k] == db.animals[k].(status := Deceased)
      && UnchangedOutside(db.animals, r.db.animals, {k})
      && Consistent(r.db)
  {
    var k := dto.animal;
    if k !in db.animals then Step(Err(AnimalNotFound), db)
    else
      var a := db.animals[k];
      var doc := Document(k.farmId, Some(k), DeathReport, Draft, DeathFormData(dto, a, db.farms[k.farmId]),
                          None, None, None, now);
      Step(Ok(docId), db.(documents := db.documents[docId := doc], animals := db.animals[k := a.(status := Deceased)]))
  }

  /** A death report filed without a place prints the farm as the place. */
  lemma DeathReportWithoutPlace(dto: DeathReportDto, a: Animal, farm: Farm, dates: Pdf.ReportDates, lines: seq<string>)
    requires !Truthy(dto.deathPlace)
    requires lines == Pdf.DeathReportLines(DeathFormData(dto, a, farm), farm.name, dates)
    ensures lines[15] == "Miejsce: Gospodarstwo"
  {
    var fd := DeathFormData(dto, a, farm);
    DeathFormFields(dto, a, farm, fd);
    Pdf.DeathReportPlace(fd, farm.name, dates, lines);
  }

  // ---------------------------------------------------------------------
  // Birth report
  // ---------------------------------------------------------------------

  datatype BirthReportDto = BirthReportDto(
    farmId: string,
    earTagNumber: string,
    species: Species,
    gender: Gender,
    birthDate: string,
    breed: Option<string>,
    mother: Option<AnimalKey>,
    motherEarTag: Option<string>)

  /** True when some animal of any farm carries `tag`. */
  predicate TagInUse(animals: AnimalStore, tag: string) {
    exists k :: k in animals && k.earTagNumber == tag
  }

  /** `dto.motherEarTag || mother?.earTagNumber`: the tag given, else the
      tag of the mother named by key when she is on record. */
  function MotherTag(animals: AnimalStore, dto: BirthReportDto): (r: Option<string>)
    ensures Truthy(dto.motherEarTag) ==> r == dto.motherEarTag
    ensures !Truthy(dto.motherEarTag) && dto.mother.Some? && dto.mother.value in animals ==>
              r == Some(dto.mother.value.earTagNumber)
    ensures !Truthy(dto.motherEarTag) && (dto.mother.None? || dto.mother.value !in animals) ==> r.None?
  {
    var fromRecord := if dto.mother.Some? && dto.mother.value in animals then Some(dto.mother.value.earTagNumber) else None;
    OrOption(dto.motherEarTag, fromRecord)
  }

  function BirthFormData(dto: BirthReportDto, motherTag: Option<string>, farm: Farm): Pdf.FormData {
    map["earTagNumber" := dto.earTagNumber,
        "species" := SpeciesName(dto.species),
        "gender" := GenderName(dto.gender),
        "birthDate" := dto.birthDate,
        "producerNumber" := farm.producerNumber,
        "herdNumber" := farm.herdNumber]
    + OptionalField("breed", dto.breed)
    + OptionalField("motherEarTag", motherTag)
  }

  function BirthDescription(motherTag: Option<string>): (r: string)
    ensures Truthy(motherTag) ==> r == "Urodzenie - matka: " + motherTag.value
    ensures !Truthy(motherTag) ==> r == "Urodzenie - matka: nieznana"
  {
    "Urodzenie - matka: " + OrElse(motherTag, "nieznana")
  }

  /** `createBirthReport`: an ACTIVE animal, a DRAFT birth report and a
      BIRTH event, or nothing at all when the farm is missing or the ear
      tag is taken in any farm. */
  function CreateBirthReport(db: Db, dto: BirthReportDto, docId: string, now: int): (r: Step<string>)
    requires Consistent(db) && docId !in db.documents
    ensures r.result.Ok? <==> dto.farmId in db.farms && !TagInUse(db.animals, dto.earTagNumber)
    ensures dto.farmId !in db.farms ==> r == Step(Err(FarmNotFound), db)
    ensures dto.farmId in db.farms && TagInUse(db.animals, dto.earTagNumber) ==> r == Step(Err(EarTagTaken), db)
    ensures r.result.Ok? ==>
      var k := AnimalKey(dto.farmId, dto.earTagNumber);
      var mother := MotherTag(db.animals, dto);
      && r.result.value == docId
      && k !in db.animals
      && r.db.farms == db.farms
      && r.db.animals == db.animals[k := Animal(None, dto.species, dto.breed, dto.gender, Some(dto.birthDate), mother, Active, None)]
      && r.db.documents.Keys == db.documents.Keys + {docId}
      && (forall id :: id in db.documents ==> r.db.documents[id] == db.documents[id])
      && r.db.documents[docId].docType == BirthReport
      && r.db.documents[docId].status == Draft
      && r.db.documents[docId].animal == Some(k)
      && Pdf.Field(r.db.documents[docId].formData, "motherEarTag") == mother
      && r.db.events == db.events + [AnimalEvent(k, BirthEvent, dto.birthDate, BirthDescription(mother))]
      && Consistent(r.db)
  {
    if dto.farmId !in db.farms then Step(Err(FarmNotFound), db)
    else if TagInUse(db.animals, dto.earTagNumber) then Step(Err(EarTagTaken), db)
    else
      var k := AnimalKey(dto.farmId, dto.earTagNumber);
      var mother := MotherTag(db.animals, dto);
      var calf := Animal(None, dto.species, dto.breed, dto.gender, Some(dto.birthDate), mother, Active, None);
      var doc := Document(dto.farmId, Some(k), BirthReport, Draft, BirthFormData(dto, mother, db.farms[dto.farmId]),
                          None, None, None, now);
      Step(Ok(docId), Db(db.farms, db.animals[k := calf], db.documents[docId := doc],
                         db.events + [AnimalEvent(k, BirthEvent, dto.birthDate, BirthDescription(mother))]))
  }

  // ---------------------------------------------------------------------
  // Transfer report
  // ---------------------------------------------------------------------

  datatype TransferReportDto = TransferReportDto(
    animal: AnimalKey,
    direction: Direction,
    transferDate: string,
    otherProducerNumber: string,
    otherHerdNumber: string,
    otherFarmName: Option<string>,
    reason: Option<string>,
    transportDocNumber: Option<string>)

  function TransferFormData(dto: TransferReportDto, a: Animal, farm: Farm): Pdf.FormData {
    map["earTagNumber" := dto.animal.earTagNumber,
        "species" := SpeciesName(a.species),
        "direction" := DirectionName(dto.direction),
        "transferDate" := dto.transferDate,
        "otherProducerNumber" := dto.otherProducerNumber,
        "otherHerdNumber" := dto.otherHerdNumber,
        "producerNumber" := farm.producerNumber,
        "herdNumber" := farm.herdNumber]
    + OptionalField("breed", a.breed)
    + OptionalField("otherFarmName", dto.otherFarmName)
    + OptionalField("reason", dto.reason)
    + OptionalField("transportDocNumber", dto.transportDocNumber)
  }

  function TransferEvent(dto: TransferReportDto): (e: AnimalEvent)
    ensures e.animal == dto.animal && e.eventDate == dto.transferDate
    ensures e.eventType == TransferOut <==> dto.direction == Out
    ensures e.eventType == TransferIn <==> dto.direction.In?
    ensures dto.direction == Out ==> e.description == "Wydanie do: " + dto.otherProducerNumber + " (" + OrElse(dto.otherFarmName, "brak nazwy") + ")"
    ensures dto.direction == In ==> e.description == "Przyjęcie z: " + dto.otherProducerNumber + " (" + OrElse(dto.otherFarmName, "brak nazwy") + ")"
  {
    if dto.direction == Out then
      AnimalEvent(dto.animal, TransferOut, dto.transferDate,
                  "Wydanie do: " + dto.otherProducerNumber + " (" + OrElse(dto.otherFarmName, "brak nazwy") + ")")
    else
      AnimalEvent(dto.animal, TransferIn, dto.transferDate,
                  "Przyjęcie z: " + dto.otherProducerNumber + " (" + OrElse(dto.otherFarmName, "brak nazwy") + ")")
  }

  /** `createTransferReport`: a DRAFT transfer report and a transfer event;
      an animal that leaves is marked sold. */
  function CreateTransferReport(db: Db, dto: TransferReportDto, docId: string, now: int): (r: Step<string>)
    requires Consistent(db) && docId !in db.documents
    ensures r.result.Ok? <==> dto.animal in db.animals
    ensures r.result.Err? ==> r == Step(Err(AnimalNotFound), db)
    ensures r.result.Ok? ==>
      var k := dto.animal;
      && r.result.value == docId
      && r.db.farms == db.farms
      && r.db.documents.Keys == db.documents.Keys + {docId}
      && (forall id :: id in db.documents ==> r.db.documents[id] == db.documents[id])
      && r.db.documents[docId].docType == TransferReport
      && r.db.documents[docId].status == Draft
      && r.db.documents[docId].animal == Some(k)
      && r.db.events == db.events + [TransferEvent(dto)]
      && r.db.animals.Keys == db.animals.Keys
      && (dto.direction == Out ==> r.db.animals[k] == db.animals[k].(status := Sold))
      && (dto.direction == In ==> r.db.animals[k] == db.animals[k])
      && UnchangedOutside(db.animals, r.db.animals, {k})
      && Consistent(r.db)
  {
    var k := dto.animal;
    if k !in db.animals then Step(Err(AnimalNotFound), db)
    else
      var a := db.animals[k];
      var doc := Document(k.farmId, Some(k), TransferReport, Draft, TransferFormData(dto, a, db.farms[k.farmId]),
                          None, None, None, now);
      var animals := if dto.direction == Out then db.animals[k := a.(status := Sold)] else db.animals;
      Step(Ok(docId), Db(db.farms, animals, db.documents[docId := doc], db.events + [TransferEvent(dto)]))
  }

  lemma TransferFormFields(dto: TransferReportDto, a: Animal, farm: Farm, fd: Pdf.FormData)
    requires fd == TransferFormData(dto, a, farm)
    ensures Pdf.Field(fd, "direction") == Some(DirectionName(dto.direction))
  {
    var base := map["earTagNumber" := dto.animal.earTagNumber,
        "species" := SpeciesName(a.species),
        "direction" := DirectionName(dto.direction),
        "transferDate" := dto.transferDate,
        "otherProducerNumber" := dto.otherProducerNumber,
        "otherHerdNumber" := dto.otherHerdNumber,
        "producerNumber" := farm.producerNumber,
        "herdNumber" := farm.herdNumber];
    assert base["direction"] == DirectionName(dto.direction);
  }

  lemma TransferFormOptionalFields(dto: TransferReportDto, a: Animal, farm: Farm, fd: Pdf.FormData)
    requires fd == TransferFormData(dto, a, farm)
    ensures Pdf.Field(fd, "otherFarmName") == dto.otherFarmName
    ensures Pdf.Field(fd, "reason") == dto.reason
    ensures Pdf.Field(fd, "transportDocNumber") == dto.transportDocNumber
  {
  }

  /** The printed heading over the other farm follows the direction the
      report was filed with. */
  lemma TransferReportHeading(dto: TransferReportDto, a: Animal, farm: Farm, dates: Pdf.ReportDates)
    ensures Pdf.TransferReportLines(TransferFormData(dto, a, farm), farm.name, dates)[18]
            == (if dto.direction == Out then "GOSPODARSTWO DOCELOWE:" else "GOSPODARSTWO ZRODLOWE:")
  {
    var fd := TransferFormData(dto, a, farm);
    TransferFormFields(dto, a, farm, fd);
    Pdf.TransferReportFields(fd, farm.name, dates, Pdf.TransferReportLines(fd, farm.name, dates));
  }

  // ---------------------------------------------------------------------
  // Printing
  // ---------------------------------------------------------------------

  /** A printed document: its text and its download name. */
  datatype Printout = Printout(content: string, filename: string)

  /** The printer of a document type: only the three reports have one. */
  function PrinterFor(t: DocumentType): (r: Option<Pdf.ReportKind>)
    ensures r.Some? <==> t == DeathReport || t == BirthReport || t == TransferReport
    ensures r == Some(Pdf.DeathKind) <==> t == DeathReport
    ensures r == Some(Pdf.BirthKind) <==> t == BirthReport
    ensures r == Some(Pdf.TransferKind) <==> t == TransferReport
  {
    match t
    case DeathReport => Some(Pdf.DeathKind)
    case BirthReport => Some(Pdf.BirthKind)
    case TransferReport => Some(Pdf.TransferKind)
    case _ => None
  }

  function FilePrefix(kind: Pdf.ReportKind): string {
    match kind
    case DeathKind => "zgloszenie_padniecia_"
    case BirthKind => "zgloszenie_urodzenia_"
    case TransferKind => "zgloszenie_przemieszczenia_"
  }

  /** The ear tag the file is named after: the linked animal's for death and
      transfer reports, the form's for birth reports. */
  function FileTag(kind: Pdf.ReportKind, doc: Document): Option<string> {
    if kind == Pdf.BirthKind then Pdf.Field(doc.formData, "earTagNumber")
    else if doc.animal.Some? then Some(doc.animal.value.earTagNumber)
    else None
  }

  /** `generatePdf`, with the formatted dates as an input. */
  function GeneratePdf(db: Db, id: string, dates: Pdf.ReportDates): (r: Result<Printout, string>)
    requires Consistent(db)
    ensures r.Ok? <==> id in db.documents && PrinterFor(db.documents[id].docType).Some?
    ensures id !in db.documents ==> r == Err(DocumentNotFound)
    ensures id in db.documents && r.Err? ==> r.error == NoPrinter
    ensures r.Ok? ==>
      var doc := db.documents[id];
      var kind := PrinterFor(doc.docType).value;
      var tag := FileTag(kind, doc);
      && (Truthy(tag) ==> r.value.filename == FilePrefix(kind) + tag.value + ".pdf")
      && (!Truthy(tag) ==> r.value.filename == FilePrefix(kind) + id + ".pdf")
  {
    if id !in db.documents then Err(DocumentNotFound)
    else
      var doc := db.documents[id];
      match PrinterFor(doc.docType)
      case None => Err(NoPrinter)
      case Some(kind) =>
        Ok(Printout(Pdf.GenerateReport(kind, doc.formData, db.farms[doc.farmId].name, dates),
                    FilePrefix(kind) + OrElse(FileTag(kind, doc), id) + ".pdf"))
  }

  /** A freshly filed death report prints, and its file is named after the
      animal's ear tag when it has one. */
  lemma DeathReportPrintable(db: Db, dto: DeathReportDto, docId: string, now: int, dates: Pdf.ReportDates)
    requires Consistent(db) && docId !in db.documents && dto.animal in db.animals
    requires dto.animal.earTagNumber != ""
    ensures var after := CreateDeathReport(db, dto, docId, now).db;
            GeneratePdf(after, docId, dates).Ok?
            && GeneratePdf(after, docId, dates).value.filename == "zgloszenie_padniecia_" + dto.animal.earTagNumber + ".pdf"
  {
    var after := CreateDeathReport(db, dto, docId, now).db;
    var doc := after.documents[docId];
    assert Consistent(after) && doc.docType == DeathReport && doc.animal == Some(dto.animal);
    assert PrinterFor(doc.docType) == Some(Pdf.DeathKind);
    assert FileTag(Pdf.DeathKind, doc) == Some(dto.animal.earTagNumber);
  }
}
