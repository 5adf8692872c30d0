/** The normaliser of the registry service: the upstream payload shapes
    (individual animals and pigs, horses by UELN, poultry events, animal
    details) and their field-by-field mapping onto one animal record, with
    the species and gender dictionaries. */
module RegistryNormalizer {
  import opened Wrappers
  import opened Text
  import opened Domain
  import opened RegistryClient

  // ---------------------------------------------------------------------
  // Upstream payloads
  // ---------------------------------------------------------------------

  /** A dictionary value: code and description. */
  datatype CodeDesc = CodeDesc(kod: Option<string>, opis: Option<string>)

  /** `x?.kod` and `x?.opis` on an optional dictionary value. */
  function Code(x: Option<CodeDesc>): Option<string> {
    if x.Some? then x.value.kod else None
  }

  function Desc(x: Option<CodeDesc>): Option<string> {
    if x.Some? then x.value.opis else None
  }

  /** An animal of the standard list endpoints (individual animals, pigs,
      poultry). */
  datatype IrzAnimal = IrzAnimal(
    numerIdentyfikacyjny: Option<string>,
    numerKolczyka: Option<string>,
    gatunek: Option<string>,
    rasa: Option<string>,
    plec: Option<string>,
    dataUrodzenia: Option<string>,
    numerMatkiKolczyk: Option<string>)

  datatype AnimalsPayload = AnimalsPayload(dane: Option<seq<IrzAnimal>>, listaZwierzat: Option<seq<IrzAnimal>>)

  /** The unified record every category is normalised into. */
  datatype NormalizedAnimal = NormalizedAnimal(
    irzId: string,
    earTagNumber: string,
    species: Species,
    breed: Option<string>,
    gender: Gender,
    birthDate: Option<string>,
    motherEarTag: Option<string>)

  /** `dst` is `src || null`: present exactly when `src` is a non-empty
      string, and then equal to it. */
  predicate NullIfEmpty(src: Option<string>, dst: Option<string>) {
    (dst.Some? <==> Truthy(src)) && (dst.Some? ==> dst == src)
  }

  // ---------------------------------------------------------------------
  // Dictionaries
  // ---------------------------------------------------------------------

  /** Species by lower-cased Polish name, with and without diacritics. */
  const SpeciesByName: map<string, Species> := map[
    "bydlo" := Cattle, "bydło" := Cattle,
    "owce" := Sheep,
    "kozy" := Goat,
    "swinie" := Pig, "świnie" := Pig,
    "drob" := Poultry, "drób" := Poultry,
    "koniowate" := Horse, "konie" := Horse,
    "jelenie" := Deer,
    "wielblady" := Camel, "wielbłądy" := Camel]

  /** Species by upper-cased dictionary code. */
  const SpeciesByCode: map<string, Species> := map[
    "B" := Cattle, "O" := Sheep, "K" := Goat, "J" := Deer,
    "W" := Camel, "S" := Pig, "D" := Poultry, "KO" := Horse]

  const MaleWords: seq<string> := ["samiec", "m", "male", "byk", "buhaj", "knur", "tryk", "cap", "ogier"]

  /** Gender codes read as male: stallion, gelding, male, 1. */
  const MaleCodes: seq<string> := ["o", "w", "m", "1"]

  /** `mapSpecies`: the name is lower-cased and looked up; anything unknown
      or missing is cattle. The lookup is on the table's own keys (see
      `MapSpeciesAsWritten` for the prototype-chain lookup of the source). */
  function MapSpecies(gatunek: Option<string>): Species {
    var key := Lower(OrElse(gatunek, ""));
    if key in SpeciesByName then SpeciesByName[key] else Cattle
  }

  /** `mapSpeciesFromCode`: the code is upper-cased and looked up. */
  function MapSpeciesFromCode(kod: Option<string>): Species {
    var key := Upper(OrElse(kod, ""));
    if key in SpeciesByCode then SpeciesByCode[key] else Cattle
  }

  function MapGender(plec: Option<string>): Gender {
    if Lower(OrElse(plec, "")) in MaleWords then Male else Female
  }

  function MapGenderFromCode(kod: Option<string>): Gender {
    if Lower(OrElse(kod, "")) in MaleCodes then Male else Female
  }

  /** The names each species is recognised by. */
  function NamesOf(s: Species): set<string> {
    match s
    case Cattle => {"bydlo", "bydło"}
    case Sheep => {"owce"}
    case Goat => {"kozy"}
    case Pig => {"swinie", "świnie"}
    case Poultry => {"drob", "drób"}
    case Horse => {"koniowate", "konie"}
    case Deer => {"jelenie"}
    case Camel => {"wielblady", "wielbłądy"}
  }

  /** A species other than cattle comes out exactly for its own names, in
      any letter case; cattle is also the answer for every unknown or
      missing name. */
  lemma MapSpeciesRecognises(gatunek: Option<string>, s: Species)
    ensures var key := Lower(OrElse(gatunek, ""));
            s != Cattle ==> (MapSpecies(gatunek) == s <==> key in NamesOf(s))
    ensures MapSpecies(gatunek) == Cattle <==> Lower(OrElse(gatunek, "")) !in SpeciesByName.Keys - NamesOf(Cattle)
  {
    var key := Lower(OrElse(gatunek, ""));
    assert SpeciesByName.Keys == NamesOf(Cattle) + NamesOf(Sheep) + NamesOf(Goat) + NamesOf(Pig)
                                 + NamesOf(Poultry) + NamesOf(Horse) + NamesOf(Deer) + NamesOf(Camel);
  }

  lemma MapSpeciesIgnoresCase(s: string)
    ensures MapSpecies(Some(Upper(s))) == MapSpecies(Some(s))
    ensures MapSpecies(Some(Lower(s))) == MapSpecies(Some(s))
  {
    LowerForgetsCase(s);
    assert Upper(s) == "" <==> s == "";
    assert Lower(s) == "" <==> s == "";
  }

  lemma MapSpeciesMissingIsCattle()
    ensures MapSpecies(None) == Cattle && MapSpecies(Some("")) == Cattle
  {
  }

  /** The ASCII spelling of each name with Polish letters. */
  lemma FoldedNames()
    ensures Fold("bydło") == "bydlo" && Fold("świnie") == "swinie"
    ensures Fold("drób") == "drob" && Fold("wielbłądy") == "wielblady"
  {
  }

  /** Names already in ASCII are their own spelling. */
  lemma AsciiNamesFixed()
    ensures Fold("bydlo") == "bydlo" && Fold("owce") == "owce" && Fold("kozy") == "kozy"
    ensures Fold("swinie") == "swinie" && Fold("drob") == "drob" && Fold("koniowate") == "koniowate"
    ensures Fold("konie") == "konie" && Fold("jelenie") == "jelenie" && Fold("wielblady") == "wielblady"
  {
    FoldAscii("bydlo"); FoldAscii("owce"); FoldAscii("kozy");
    FoldAscii("swinie"); FoldAscii("drob"); FoldAscii("koniowate");
    FoldAscii("konie"); FoldAscii("jelenie"); FoldAscii("wielblady");
  }

  lemma FoldAscii(s: string)
    requires forall i :: 0 <= i < |s| ==> 'a' <= s[i] <= 'z'
    ensures Fold(s) == s
  {
    forall i | 0 <= i < |s| ensures Fold(s)[i] == s[i] {
      FoldCharSpec(s[i]);
    }
  }

  /** Every name written with Polish letters is also recognised in its
      ASCII spelling, as the same species. */
  lemma SpeciesNamesFoldClosed(k: string)
    requires k in SpeciesByName
    ensures Fold(k) in SpeciesByName && SpeciesByName[Fold(k)] == SpeciesByName[k]
  {
    FoldedNames();
    AsciiNamesFixed();
  }

  /** The dictionary code of each species. */
  function CodeOf(s: Species): string {
    match s
    case Cattle => "B"
    case Sheep => "O"
    case Goat => "K"
    case Pig => "S"
    case Poultry => "D"
    case Horse => "KO"
    case Deer => "J"
    case Camel => "W"
  }

  /** The code dictionary names every species exactly once: `CodeOf` is its
      inverse in both directions, and `KO` is the horse in any case. */
  lemma SpeciesCodesBijective()
    ensures forall s: Species :: CodeOf(s) in SpeciesByCode && SpeciesByCode[CodeOf(s)] == s
    ensures forall c :: c in SpeciesByCode ==> CodeOf(SpeciesByCode[c]) == c
    ensures MapSpeciesFromCode(Some("ko")) == Horse && MapSpeciesFromCode(Some("Ko")) == Horse
  {
    assert Upper("ko") == "KO";
    assert Upper("Ko") == "KO";
  }

  lemma MapSpeciesFromCodeIgnoresCase(s: string)
    ensures MapSpeciesFromCode(Some(Lower(s))) == MapSpeciesFromCode(Some(s))
    ensures MapSpeciesFromCode(None) == Cattle
  {
    UpperForgetsCase(s);
    assert Lower(s) == "" <==> s == "";
  }

  /** Both gender mappings read male exactly from their male list, in any
      letter case, and read everything else, a missing value included, as
      female. */
  lemma MapGenderSpec(plec: Option<string>)
    ensures MapGender(plec) == Male <==> Truthy(plec) && Lower(plec.value) in MaleWords
    ensures MapGenderFromCode(plec) == Male <==> Truthy(plec) && Lower(plec.value) in MaleCodes
    ensures MapGender(None) == Female && MapGenderFromCode(None) == Female
  {
    assert "" !in MaleWords;
    assert "" !in MaleCodes;
  }

  lemma MapGenderIgnoresCase(s: string)
    ensures MapGender(Some(Upper(s))) == MapGender(Some(s))
    ensures MapGenderFromCode(Some(Upper(s))) == MapGenderFromCode(Some(s))
  {
    LowerForgetsCase(s);
    assert Upper(s) == "" <==> s == "";
  }

  // ---------------------------------------------------------------------
  // Standard animal lists
  // ---------------------------------------------------------------------

  /** `normalizeAnimal`. */
  function NormalizeAnimal(a: IrzAnimal): (r: NormalizedAnimal)
    ensures r.irzId == r.earTagNumber
    ensures Truthy(a.numerKolczyka) ==> r.earTagNumber == a.numerKolczyka.value
    ensures !Truthy(a.numerKolczyka) && Truthy(a.numerIdentyfikacyjny) ==> r.earTagNumber == a.numerIdentyfikacyjny.value
    ensures !Truthy(a.numerKolczyka) && !Truthy(a.numerIdentyfikacyjny) ==> r.earTagNumber == ""
    ensures r.species == MapSpecies(a.gatunek) && r.gender == MapGender(a.plec)
    ensures NullIfEmpty(a.rasa, r.breed)
    ensures NullIfEmpty(a.dataUrodzenia, r.birthDate)
    ensures NullIfEmpty(a.numerMatkiKolczyk, r.motherEarTag)
  {
    var earTag := OrElse(a.numerKolczyka, OrElse(a.numerIdentyfikacyjny, ""));
    NormalizedAnimal(
      earTag, earTag, MapSpecies(a.gatunek), OrNull(a.rasa), MapGender(a.plec),
      OrNull(a.dataUrodzenia), OrNull(a.numerMatkiKolczyk))
  }

  /** `dane || listaZwierzat || []`: an array is truthy even when empty, so
      `dane` wins whenever it is present. */
  function SelectAnimals(p: AnimalsPayload): (r: seq<IrzAnimal>)
    ensures p.dane.Some? ==> r == p.dane.value
    ensures p.dane.None? && p.listaZwierzat.Some? ==> r == p.listaZwierzat.value
    ensures p.dane.None? && p.listaZwierzat.None? ==> r == []
  {
    if p.dane.Some? then p.dane.value
    else if p.listaZwierzat.Some? then p.listaZwierzat.value
    else []
  }

  function NormalizeAnimals(xs: seq<IrzAnimal>): (r: seq<NormalizedAnimal>)
    ensures |r| == |xs|
    ensures forall i :: 0 <= i < |xs| ==> r[i] == NormalizeAnimal(xs[i])
  {
    if xs == [] then [] else [NormalizeAnimal(xs[0])] + NormalizeAnimals(xs[1..])
  }

  /** What `fetchWithRetry` makes of a successful response. */
  function NormalizeAnimalsPayload(p: AnimalsPayload): (r: seq<NormalizedAnimal>)
    ensures |r| == |SelectAnimals(p)|
    ensures forall i :: 0 <= i < |r| ==> r[i] == NormalizeAnimal(SelectAnimals(p)[i])
  {
    NormalizeAnimals(SelectAnimals(p))
  }

  // ---------------------------------------------------------------------
  // Horses
  // ---------------------------------------------------------------------

  datatype TransponderEntry = TransponderEntry(
    numerKodTranspondera: Option<string>,
    dataObowiazywaniaOd: Option<string>,
    dataObowiazywaniaDo: Option<string>)

  datatype HorseDetails = HorseDetails(
    rasa: Option<CodeDesc>,
    typRasowy: Option<CodeDesc>,
    uelnMatki: Option<string>,
    uelnOjca: Option<string>,
    nazwaOjca: Option<string>,
    numerKodTranspondera: Option<string>,
    kodKrajuUrodzenia: Option<CodeDesc>,
    kastracja: Option<bool>,
    dataKastracji: Option<string>)

  datatype IrzHorse = IrzHorse(
    idKoniowatego: Option<int>,
    ueln: Option<string>,
    imieNazwa: Option<string>,
    dataUrodzenia: Option<string>,
    plec: Option<CodeDesc>,
    masc: Option<CodeDesc>,
    krajPochodzenia: Option<CodeDesc>,
    szczegoly: Option<HorseDetails>,
    historiaKodowTranspondera: Option<seq<TransponderEntry>>)

  datatype HorsesPayload = HorsesPayload(listaZwierzeta: Option<seq<IrzHorse>>)

  /** A horse: the unified record plus the horse-only fields. */
  datatype NormalizedHorse = NormalizedHorse(
    animal: NormalizedAnimal,
    ueln: string,
    name: Option<string>,
    coat: Option<string>,
    transponderCode: Option<string>,
    fatherUeln: Option<string>,
    fatherName: Option<string>,
    isCastrated: bool,
    castrationDate: Option<string>,
    countryOfOrigin: Option<string>,
    breedType: Option<string>)

  /** `history.find(t => !t.dataObowiazywaniaDo)`, as an index. */
  function CurrentTransponder(h: seq<TransponderEntry>): (r: Option<nat>)
    ensures r.Some? ==> r.value < |h| && !Truthy(h[r.value].dataObowiazywaniaDo)
    ensures r.Some? ==> forall j :: 0 <= j < r.value ==> Truthy(h[j].dataObowiazywaniaDo)
    ensures r.None? ==> forall j :: 0 <= j < |h| ==> Truthy(h[j].dataObowiazywaniaDo)
  {
    if h == [] then None
    else if !Truthy(h[0].dataObowiazywaniaDo) then Some(0)
    else
      match CurrentTransponder(h[1..])
      case None => None
      case Some(i) => Some(i + 1)
  }

  /** The code of the current transponder, if there is one. */
  function CurrentTransponderCode(h: Option<seq<TransponderEntry>>): Option<string> {
    if h.None? then None
    else
      match CurrentTransponder(h.value)
      case None => None
      case Some(i) => h.value[i].numerKodTranspondera
  }

  /** `String(idKoniowatego || ueln)`: a zero or missing id falls back. */
  function HorseIrzId(id: Option<int>, ueln: string): (r: string)
    ensures (id.Some? && id.value != 0) ==> r == IntToString(id.value)
    ensures (id.None? || id.value == 0) ==> r == ueln
  {
    if id.Some? && id.value != 0 then IntToString(id.value) else ueln
  }

  /** `normalizeHorse`. */
  function NormalizeHorse(h: IrzHorse): (r: NormalizedHorse)
    ensures r.animal.species == Horse
    ensures r.animal.earTagNumber == r.ueln == OrElse(h.ueln, "")
    ensures r.animal.irzId == HorseIrzId(h.idKoniowatego, r.ueln)
    ensures r.animal.gender == MapGenderFromCode(Code(h.plec))
    ensures NullIfEmpty(h.dataUrodzenia, r.animal.birthDate)
    ensures NullIfEmpty(h.imieNazwa, r.name)
    ensures Truthy(CurrentTransponderCode(h.historiaKodowTranspondera)) ==>
              r.transponderCode == CurrentTransponderCode(h.historiaKodowTranspondera)
    ensures !Truthy(CurrentTransponderCode(h.historiaKodowTranspondera)) ==>
              (h.szczegoly.None? ==> r.transponderCode == None) &&
              (h.szczegoly.Some? ==> NullIfEmpty(h.szczegoly.value.numerKodTranspondera, r.transponderCode))
    ensures r.isCastrated == (h.szczegoly.Some? && h.szczegoly.value.kastracja == Some(true))
    ensures NullIfEmpty(Desc(h.masc), r.coat)
    ensures h.szczegoly.Some? ==>
              var d := h.szczegoly.value;
              NullIfEmpty(Desc(d.rasa), r.animal.breed) && NullIfEmpty(d.uelnMatki, r.animal.motherEarTag)
              && NullIfEmpty(d.uelnOjca, r.fatherUeln) && NullIfEmpty(d.nazwaOjca, r.fatherName)
              && NullIfEmpty(d.dataKastracji, r.castrationDate) && NullIfEmpty(Desc(d.typRasowy), r.breedType)
    ensures h.szczegoly.None? ==>
              r.animal.breed.None? && r.animal.motherEarTag.None? && r.fatherUeln.None? && r.fatherName.None?
              && r.castrationDate.None? && r.breedType.None?
    ensures Truthy(Desc(h.krajPochodzenia)) ==> r.countryOfOrigin == Desc(h.krajPochodzenia)
    ensures !Truthy(Desc(h.krajPochodzenia)) ==>
              NullIfEmpty(if h.szczegoly.Some? then Desc(h.szczegoly.value.kodKrajuUrodzenia) else None, r.countryOfOrigin)
  {
    var ueln := OrElse(h.ueln, "");
    var d := h.szczegoly;
    var breed := if d.Some? then OrNull(Desc(d.value.rasa)) else None;
    var mother := if d.Some? then OrNull(d.value.uelnMatki) else None;
    var detailsTransponder := if d.Some? then d.value.numerKodTranspondera else None;
    NormalizedHorse(
      NormalizedAnimal(HorseIrzId(h.idKoniowatego, ueln), ueln, Horse, breed,
                       MapGenderFromCode(Code(h.plec)), OrNull(h.dataUrodzenia), mother),
      ueln,
      OrNull(h.imieNazwa),
      OrNull(Desc(h.masc)),
      OrNull(OrOption(CurrentTransponderCode(h.historiaKodowTranspondera), detailsTransponder)),
      if d.Some? then OrNull(d.value.uelnOjca) else None,
      if d.Some? then OrNull(d.value.nazwaOjca) else None,
      d.Some? && d.value.kastracja == Some(true),
      if d.Some? then OrNull(d.value.dataKastracji) else None,
      OrNull(OrOption(Desc(h.krajPochodzenia), if d.Some? then Desc(d.value.kodKrajuUrodzenia) else None)),
      if d.Some? then OrNull(Desc(d.value.typRasowy)) else None)
  }

  function NormalizeHorses(xs: seq<IrzHorse>): (r: seq<NormalizedHorse>)
    ensures |r| == |xs|
    ensures forall i :: 0 <= i < |xs| ==> r[i] == NormalizeHorse(xs[i])
  {
    if xs == [] then [] else [NormalizeHorse(xs[0])] + NormalizeHorses(xs[1..])
  }

  /** What `fetchHorsesWithRetry` makes of a successful response
      (`listaZwierzeta || []`). */
  function NormalizeHorsesPayload(p: HorsesPayload): (r: seq<NormalizedHorse>)
    ensures p.listaZwierzeta.None? ==> r == []
    ensures p.listaZwierzeta.Some? ==> |r| == |p.listaZwierzeta.value|
    ensures p.listaZwierzeta.Some? ==> forall i :: 0 <= i < |r| ==> r[i] == NormalizeHorse(p.listaZwierzeta.value[i])
  {
    NormalizeHorses(p.listaZwierzeta.GetOr([]))
  }

  // ---------------------------------------------------------------------
  // Horse events
  // ---------------------------------------------------------------------

  /** A horse event is passed through without normalisation; only the fields
      the model tells apart are kept. */
  datatype HorseEvent = HorseEvent(lp: Option<int>, ueln: Option<string>, typZdarzenia: Option<string>)

  datatype HorseEventsPayload = HorseEventsPayload(listaZdarzen: Option<seq<HorseEvent>>)

  /** What `fetchHorseEventsWithRetry` returns: `listaZdarzen || []`. */
  function HorseEventsOf(p: HorseEventsPayload): (r: seq<HorseEvent>)
    ensures p.listaZdarzen.Some? ==> r == p.listaZdarzen.value
    ensures p.listaZdarzen.None? ==> r == []
  {
    p.listaZdarzen.GetOr([])
  }

  // ---------------------------------------------------------------------
  // Poultry events
  // ---------------------------------------------------------------------

  datatype ErrorEntry = ErrorEntry(kodBledu: Option<string>, komunikat: Option<string>)

  datatype IrzPoultryEvent = IrzPoultryEvent(
    lp: Option<int>,
    numerPartiiDrobiu: Option<string>,
    gatunek: Option<CodeDesc>,
    liczbaSztukDrobiu: Option<int>,
    liczbaSztukJajWylegowych: Option<int>,
    typZdarzenia: Option<CodeDesc>,
    stanZdarzenia: Option<CodeDesc>,
    dataZdarzenia: Option<string>,
    numerDzialalnosciZglaszajacej: Option<string>,
    numerDzialalnosciKomplementarnej: Option<string>,
    uuid: Option<string>,
    blad: Option<seq<ErrorEntry>>)

  datatype PoultryEventsPayload = PoultryEventsPayload(listaZdarzenie: Option<seq<IrzPoultryEvent>>)

  datatype PoultryError = PoultryError(code: string, message: string)

  datatype NormalizedPoultryEvent = NormalizedPoultryEvent(
    id: string,
    batchNumber: string,
    species: string,
    speciesName: Option<string>,
    poultryCount: int,
    hatchingEggsCount: int,
    eventType: string,
    eventTypeName: Option<string>,
    eventStatus: string,
    eventStatusName: Option<string>,
    eventDate: Option<string>,
    reportingActivityNumber: Option<string>,
    complementaryActivityNumber: Option<string>,
    errors: seq<PoultryError>)

  function NormalizeErrors(bs: seq<ErrorEntry>): (r: seq<PoultryError>)
    ensures |r| == |bs|
    ensures forall i :: 0 <= i < |bs| ==>
      r[i].code == OrElse(bs[i].kodBledu, "") && r[i].message == OrElse(bs[i].komunikat, "")
  {
    if bs == [] then []
    else [PoultryError(OrElse(bs[0].kodBledu, ""), OrElse(bs[0].komunikat, ""))] + NormalizeErrors(bs[1..])
  }

  /** `uuid || String(lp || '')`. */
  function PoultryEventId(uuid: Option<string>, lp: Option<int>): (r: string)
    ensures Truthy(uuid) ==> r == uuid.value
    ensures !Truthy(uuid) && lp.Some? && lp.value != 0 ==> r == IntToString(lp.value)
    ensures !Truthy(uuid) && (lp.None? || lp.value == 0) ==> r == ""
  {
    if Truthy(uuid) then uuid.value
    else if lp.Some? && lp.value != 0 then IntToString(lp.value)
    else ""
  }

  /** `normalizePoultryEvent`. */
  function NormalizePoultryEvent(e: IrzPoultryEvent): (r: NormalizedPoultryEvent)
    ensures r.id == PoultryEventId(e.uuid, e.lp)
    ensures r.poultryCount == e.liczbaSztukDrobiu.GetOr(0)
    ensures r.hatchingEggsCount == e.liczbaSztukJajWylegowych.GetOr(0)
    ensures r.batchNumber == OrElse(e.numerPartiiDrobiu, "")
    ensures r.species == OrElse(Code(e.gatunek), "") && NullIfEmpty(Desc(e.gatunek), r.speciesName)
    ensures r.eventType == OrElse(Code(e.typZdarzenia), "")
    ensures r.eventStatus == OrElse(Code(e.stanZdarzenia), "")
    ensures NullIfEmpty(Desc(e.typZdarzenia), r.eventTypeName)
    ensures NullIfEmpty(Desc(e.stanZdarzenia), r.eventStatusName)
    ensures NullIfEmpty(e.dataZdarzenia, r.eventDate)
    ensures NullIfEmpty(e.numerDzialalnosciZglaszajacej, r.reportingActivityNumber)
    ensures NullIfEmpty(e.numerDzialalnosciKomplementarnej, r.complementaryActivityNumber)
    ensures e.blad.None? ==> r.errors == []
    ensures e.blad.Some? ==> |r.errors| == |e.blad.value|
    ensures e.blad.Some? ==> forall i :: 0 <= i < |r.errors| ==>
              r.errors[i] == PoultryError(OrElse(e.blad.value[i].kodBledu, ""), OrElse(e.blad.value[i].komunikat, ""))
  {
    NormalizedPoultryEvent(
      PoultryEventId(e.uuid, e.lp),
      OrElse(e.numerPartiiDrobiu, ""),
      OrElse(Code(e.gatunek), ""),
      OrNull(Desc(e.gatunek)),
      e.liczbaSztukDrobiu.GetOr(0),
      e.liczbaSztukJajWylegowych.GetOr(0),
      OrElse(Code(e.typZdarzenia), ""),
      OrNull(Desc(e.typZdarzenia)),
      OrElse(Code(e.stanZdarzenia), ""),
      OrNull(Desc(e.stanZdarzenia)),
      OrNull(e.dataZdarzenia),
      OrNull(e.numerDzialalnosciZglaszajacej),
      OrNull(e.numerDzialalnosciKomplementarnej),
      NormalizeErrors(e.blad.GetOr([])))
  }

  function NormalizePoultryEvents(xs: seq<IrzPoultryEvent>): (r: seq<NormalizedPoultryEvent>)
    ensures |r| == |xs|
    ensures forall i :: 0 <= i < |xs| ==> r[i] == NormalizePoultryEvent(xs[i])
  {
    if xs == [] then [] else [NormalizePoultryEvent(xs[0])] + NormalizePoultryEvents(xs[1..])
  }

  /** What `fetchPoultryEventsWithRetry` makes of a successful response
      (`listaZdarzenie || []`). */
  function NormalizePoultryPayload(p: PoultryEventsPayload): (r: seq<NormalizedPoultryEvent>)
    ensures p.listaZdarzenie.None? ==> r == []
    ensures p.listaZdarzenie.Some? ==> |r| == |p.listaZdarzenie.value|
    ensures p.listaZdarzenie.Some? ==> forall i :: 0 <= i < |r| ==> r[i] == NormalizePoultryEvent(p.listaZdarzenie.value[i])
  {
    NormalizePoultryEvents(p.listaZdarzenie.GetOr([]))
  }

  // ---------------------------------------------------------------------
  // Individual animal details
  // ---------------------------------------------------------------------

  datatype AnimalDetails = AnimalDetails(
    numerIdentyfikacyjnyZwierzecia: Option<string>,
    gatunek: Option<CodeDesc>,
    dataUrodzenia: Option<string>,
    plec: Option<CodeDesc>,
    kodRasy: Option<CodeDesc>,
    czyMatka: Option<bool>,
    dataWyrejestrowania: Option<string>,
    masaCialaZwierzecia: Option<int>,
    masaTuszy: Option<int>,
    numerDzialalnosci: Option<string>,
    sposobOznakowania: Option<string>,
    informacjaOOswiadczeniuDDS: Option<string>)

  datatype NormalizedIndividualAnimal = NormalizedIndividualAnimal(
    animal: NormalizedAnimal,
    speciesCode: string,
    speciesName: Option<string>,
    breedCode: Option<string>,
    breedName: Option<string>,
    genderCode: Option<string>,
    genderName: Option<string>,
    wasMother: bool,
    deregistrationDate: Option<string>,
    bodyWeight: Option<int>,
    carcassWeight: Option<int>,
    activityNumber: Option<string>,
    markingMethod: Option<string>,
    ddsStatement: Option<string>)

  /** `n || null` on an optional number: zero collapses to `null`. */
  function NonZero(n: Option<int>): (r: Option<int>)
    ensures r.Some? <==> n.Some? && n.value != 0
    ensures r.Some? ==> r == n
  {
    if n.Some? && n.value != 0 then n else None
  }

  /** `normalizeIndividualAnimal`: the species and gender come from the
      dictionary codes, and the mother is never known. */
  function NormalizeIndividualAnimal(d: AnimalDetails): (r: NormalizedIndividualAnimal)
    ensures r.animal.irzId == r.animal.earTagNumber == OrElse(d.numerIdentyfikacyjnyZwierzecia, "")
    ensures r.animal.species == MapSpeciesFromCode(Code(d.gatunek))
    ensures r.animal.gender == MapGenderFromCode(Code(d.plec))
    ensures r.animal.motherEarTag == None
    ensures NullIfEmpty(d.dataUrodzenia, r.animal.birthDate)
    ensures NullIfEmpty(Desc(d.kodRasy), r.animal.breed) && r.breedName == r.animal.breed
    ensures r.speciesCode == OrElse(Code(d.gatunek), "") && NullIfEmpty(Desc(d.gatunek), r.speciesName)
    ensures NullIfEmpty(Code(d.kodRasy), r.breedCode)
    ensures NullIfEmpty(Code(d.plec), r.genderCode) && NullIfEmpty(Desc(d.plec), r.genderName)
    ensures r.wasMother == (d.czyMatka == Some(true))
    ensures NullIfEmpty(d.dataWyrejestrowania, r.deregistrationDate)
    ensures r.bodyWeight.Some? <==> d.masaCialaZwierzecia.Some? && d.masaCialaZwierzecia.value != 0
    ensures r.carcassWeight.Some? <==> d.masaTuszy.Some? && d.masaTuszy.value != 0
    ensures r.bodyWeight.Some? ==> r.bodyWeight == d.masaCialaZwierzecia
    ensures r.carcassWeight.Some? ==> r.carcassWeight == d.masaTuszy
    ensures NullIfEmpty(d.numerDzialalnosci, r.activityNumber)
    ensures NullIfEmpty(d.sposobOznakowania, r.markingMethod)
    ensures NullIfEmpty(d.informacjaOOswiadczeniuDDS, r.ddsStatement)
  {
    var earTag := OrElse(d.numerIdentyfikacyjnyZwierzecia, "");
    NormalizedIndividualAnimal(
      NormalizedAnimal(earTag, earTag, MapSpeciesFromCode(Code(d.gatunek)), OrNull(Desc(d.kodRasy)),
                       MapGenderFromCode(Code(d.plec)), OrNull(d.dataUrodzenia), None),
      OrElse(Code(d.gatunek), ""),
      OrNull(Desc(d.gatunek)),
      OrNull(Code(d.kodRasy)),
      OrNull(Desc(d.kodRasy)),
      OrNull(Code(d.plec)),
      OrNull(Desc(d.plec)),
      d.czyMatka == Some(true),
      OrNull(d.dataWyrejestrowania),
      NonZero(d.masaCialaZwierzecia),
      NonZero(d.masaTuszy),
      OrNull(d.numerDzialalnosci),
      OrNull(d.sposobOznakowania),
      OrNull(d.informacjaOOswiadczeniuDDS))
  }

  /** What the details endpoint yields: a record, `null` (HTTP 404 or no
      animal number in the body), or an error. */
  datatype DetailsOutcome = DetailsBody(body: AnimalDetails) | DetailsError(status: Option<int>, message: string)

  /** `fetchIndividualAnimalDetails` after the request: a 404 and a body
      without an animal number are `null`; every other error is raised. */
  function AnimalDetailsResult(o: DetailsOutcome): (r: Result<Option<NormalizedIndividualAnimal>, string>)
    ensures r.Ok? && r.value.None? <==>
      (o.DetailsError? && o.status == Some(404)) || (o.DetailsBody? && !Truthy(o.body.numerIdentyfikacyjnyZwierzecia))
    ensures r.Ok? && r.value.Some? ==> r.value.value.animal.earTagNumber != ""
    ensures r.Err? ==> o.DetailsError? && r.error == "Błąd API IRZ+: " + o.message
  {
    match o
    case DetailsBody(b) =>
      if !Truthy(b.numerIdentyfikacyjnyZwierzecia) then Ok(None) else Ok(Some(NormalizeIndividualAnimal(b)))
    case DetailsError(status, msg) =>
      if status == Some(404) then Ok(None) else Err("Błąd API IRZ+: " + msg)
  }

  // ---------------------------------------------------------------------
  // The fetchers: retry loop, then the category's normaliser
  // ---------------------------------------------------------------------

  /** Endpoint templates, before `EndpointPath` picks the mode. */
  const IndividualAnimalsPath := "/indywidualne/zwierze/api/prod/zwierzetaIndywidualne"
  const PigsPath := "/grupowe/swinie/api/prod/dane"
  const PoultryPath := "/drob/zwierze/api/prod/drob"
  const PoultryEventsPath := "/drob/zdarzenia/api/prod/zdarzeniadrob"
  const HorsesPath := "/koniowate/zwierze/api/prod/koniowate"

  /** The list fetch of individual animals, pigs and poultry: the body of
      the attempt that settled the loop is normalised. */
  function FetchAnimals(outcomes: seq<Outcome<AnimalsPayload>>): (r: Fetched<seq<NormalizedAnimal>>)
    requires Retries <= |outcomes|
    ensures 1 <= r.attempts <= Retries
    ensures r.result.Ok? <==> outcomes[r.attempts - 1].Response?
    ensures r.result.Ok? ==> r.result.value == NormalizeAnimalsPayload(outcomes[r.attempts - 1].body)
    ensures r.result.Err? ==> r.result.error == Settle(outcomes[r.attempts - 1]).error
  {
    MapFetched(FetchWithRetry(outcomes, Retries), NormalizeAnimalsPayload)
  }

  function FetchHorses(outcomes: seq<Outcome<HorsesPayload>>): (r: Fetched<seq<NormalizedHorse>>)
    requires Retries <= |outcomes|
    ensures 1 <= r.attempts <= Retries
    ensures r.result.Ok? <==> outcomes[r.attempts - 1].Response?
    ensures r.result.Ok? ==> r.result.value == NormalizeHorsesPayload(outcomes[r.attempts - 1].body)
    ensures r.result.Err? ==> r.result.error == Settle(outcomes[r.attempts - 1]).error
  {
    MapFetched(FetchWithRetry(outcomes, Retries), NormalizeHorsesPayload)
  }

  function FetchHorseEvents(outcomes: seq<Outcome<HorseEventsPayload>>): (r: Fetched<seq<HorseEvent>>)
    requires Retries <= |outcomes|
    ensures 1 <= r.attempts <= Retries
    ensures r.result.Ok? <==> outcomes[r.attempts - 1].Response?
    ensures r.result.Ok? ==> r.result.value == HorseEventsOf(outcomes[r.attempts - 1].body)
    ensures r.result.Err? ==> r.result.error == Settle(outcomes[r.attempts - 1]).error
  {
    MapFetched(FetchWithRetry(outcomes, Retries), HorseEventsOf)
  }

  function FetchPoultryEvents(outcomes: seq<Outcome<PoultryEventsPayload>>): (r: Fetched<seq<NormalizedPoultryEvent>>)
    requires Retries <= |outcomes|
    ensures 1 <= r.attempts <= Retries
    ensures r.result.Ok? <==> outcomes[r.attempts - 1].Response?
    ensures r.result.Ok? ==> r.result.value == NormalizePoultryPayload(outcomes[r.attempts - 1].body)
    ensures r.result.Err? ==> r.result.error == Settle(outcomes[r.attempts - 1]).error
  {
    MapFetched(FetchWithRetry(outcomes, Retries), NormalizePoultryPayload)
  }

  // ---------------------------------------------------------------------
  // The source's lookup through the prototype chain
  // ---------------------------------------------------------------------

  /** A JavaScript value as far as a property read on an object literal can
      produce one: a string, an inherited object member, or `undefined`. */
  datatype JsValue = JsUndefined | JsString(s: string) | JsInherited(name: string)

  /** Every object literal inherits these members from `Object.prototype`. */
  const ObjectPrototypeMembers: set<string> := {
    "constructor", "__defineGetter__", "__defineSetter__", "hasOwnProperty",
    "__lookupGetter__", "__lookupSetter__", "isPrototypeOf", "propertyIsEnumerable",
    "toString", "valueOf", "__proto__", "toLocaleString"}

  /** `mapping[key]` on an object literal: own properties first, then the
      prototype chain. */
  function JsLookup(mapping: map<string, string>, key: string): JsValue {
    if key in mapping then JsString(mapping[key])
    else if key in ObjectPrototypeMembers then JsInherited(key)
    else JsUndefined
  }

  function JsOrString(v: JsValue, d: string): JsValue {
    match v
    case JsUndefined => JsString(d)
    case JsString(s) => if s == "" then JsString(d) else v
    case JsInherited(_) => v
  }

  const SpeciesNameTable: map<string, string> := map k | k in SpeciesByName :: SpeciesName(SpeciesByName[k])

  /** `mapSpecies` as written: `mapping[normalized] || 'CATTLE'` on an object
      literal. */
  function MapSpeciesAsWritten(gatunek: Option<string>): JsValue {
    JsOrString(JsLookup(SpeciesNameTable, Lower(OrElse(gatunek, ""))), "CATTLE")
  }

  /** The name `Constructor` reaches the inherited `constructor` member, so
      the function returns the `Object` function rather than a species. */
  lemma MapSpeciesAsWrittenLeaksPrototype()
    ensures MapSpeciesAsWritten(Some("Constructor")) == JsInherited("constructor")
    ensures forall s: Species :: MapSpeciesAsWritten(Some("Constructor")) != JsString(SpeciesName(s))
  {
    LowerConstructor();
    ConstructorInherited();
  }

  lemma ConstructorInherited()
    ensures JsLookup(SpeciesNameTable, "constructor") == JsInherited("constructor")
  {
    ConstructorNotSpeciesName();
    assert "constructor" in ObjectPrototypeMembers;
  }

  lemma ConstructorNotSpeciesName()
    ensures "constructor" !in SpeciesNameTable
  {
    SpeciesNameTableSpec("constructor");
    assert "constructor" !in SpeciesByName;
  }

  lemma LowerConstructor()
    ensures Lower("Constructor") == "constructor"
  {
    var l := Lower("Constructor");
    forall i | 0 <= i < 11 ensures l[i] == "constructor"[i] {
      assert LowerChar("Constructor"[i]) == "constructor"[i];
    }
  }

  /** The name table is the species dictionary with the enumeration's
      names as values. */
  lemma SpeciesNameTableSpec(key: string)
    ensures key in SpeciesNameTable <==> key in SpeciesByName
    ensures key in SpeciesByName ==> SpeciesNameTable[key] == SpeciesName(SpeciesByName[key]) != ""
  {
    if key in SpeciesByName {
      var s := SpeciesByName[key];
      assert SpeciesName(s) != "" by { match s case _ => }
    }
  }

  /** Away from the inherited member names the source and the corrected
      `MapSpecies` agree. */
  lemma MapSpeciesAsWrittenAgrees(gatunek: Option<string>)
    requires Lower(OrElse(gatunek, "")) !in ObjectPrototypeMembers
    ensures MapSpeciesAsWritten(gatunek) == JsString(SpeciesName(MapSpecies(gatunek)))
  {
    SpeciesNameTableSpec(Lower(OrElse(gatunek, "")));
  }
}
