/** The background sync job: fetch the three animal categories from the
    registry, reconcile them into the animal table, and record the outcome
    on the farm and the job's sync-log row. */
module Sync {
  import opened Wrappers
  import opened Text
  import opened Domain
  import opened RegistryNormalizer
  import Utf8
  import Base64

  // ---------------------------------------------------------------------
  // Reconciliation
  // ---------------------------------------------------------------------

  /** The fields an update never touches: they are set once, on creation. */
  predicate SameIdentity(a: Animal, b: Animal) {
    a.species == b.species && a.gender == b.gender && a.birthDate == b.birthDate
    && a.motherEarTag == b.motherEarTag && a.status == b.status
  }

  /** One upsert keyed by (farm, ear tag), at time `now`. */
  function UpsertAnimal(store: AnimalStore, farmId: string, a: NormalizedAnimal, now: int): (r: AnimalStore)
    ensures var k := AnimalKey(farmId, a.earTagNumber);
            && k in r
            && r[k].irzId == Some(a.irzId) && r[k].breed == a.breed && r[k].syncedAt == Some(now)
            && (k in store ==> SameIdentity(store[k], r[k]))
            && (k !in store ==> r[k].status == Active && r[k].species == a.species && r[k].gender == a.gender
                                && r[k].birthDate == OrNull(a.birthDate) && r[k].motherEarTag == a.motherEarTag)
            && UnchangedOutside(store, r, {k})
  {
    var k := AnimalKey(farmId, a.earTagNumber);
    if k in store then
      store[k := store[k].(irzId := Some(a.irzId), breed := a.breed, syncedAt := Some(now))]
    else
      store[k := Animal(Some(a.irzId), a.species, a.breed, a.gender, OrNull(a.birthDate), a.motherEarTag, Active, Some(now))]
  }

  function TaggedKeys(farmId: string, animals: seq<NormalizedAnimal>): set<AnimalKey> {
    set i | 0 <= i < |animals| && animals[i].earTagNumber != "" :: AnimalKey(farmId, animals[i].earTagNumber)
  }

  function CountTagged(animals: seq<NormalizedAnimal>): nat {
    if animals == [] then 0 else (if animals[0].earTagNumber != "" then 1 else 0) + CountTagged(animals[1..])
  }

  /** `upsertAnimals`: the records are upserted in order; one without an
      ear tag is skipped. The count is of the records upserted, duplicates
      included. */
  function UpsertAnimals(store: AnimalStore, farmId: string, animals: seq<NormalizedAnimal>, now: int): (r: (AnimalStore, nat))
    ensures r.1 == CountTagged(animals) && r.1 <= |animals|
    decreases |animals|
  {
    if animals == [] then (store, 0)
    else
      var a := animals[0];
      var s1 := if a.earTagNumber != "" then UpsertAnimal(store, farmId, a, now) else store;
      var (s2, n) := UpsertAnimals(s1, farmId, animals[1..], now);
      (s2, n + (if a.earTagNumber != "" then 1 else 0))
  }

  lemma TaggedKeysCons(farmId: string, animals: seq<NormalizedAnimal>)
    requires |animals| > 0
    ensures TaggedKeys(farmId, animals) ==
            TaggedKeys(farmId, animals[1..]) +
            (if animals[0].earTagNumber != "" then {AnimalKey(farmId, animals[0].earTagNumber)} else {})
  {
    var a := animals[0];
    forall k | k in TaggedKeys(farmId, animals)
      ensures k in TaggedKeys(farmId, animals[1..]) || (a.earTagNumber != "" && k == AnimalKey(farmId, a.earTagNumber))
    {
      var i :| 0 <= i < |animals| && animals[i].earTagNumber != "" && k == AnimalKey(farmId, animals[i].earTagNumber);
      if i > 0 { assert animals[1..][i - 1] == animals[i]; }
    }
    forall k | k in TaggedKeys(farmId, animals[1..]) ensures k in TaggedKeys(farmId, animals) {
      var i :| 0 <= i < |animals[1..]| && animals[1..][i].earTagNumber != "" && k == AnimalKey(farmId, animals[1..][i].earTagNumber);
      assert animals[i + 1] == animals[1..][i];
    }
  }

  /** The sync writes exactly the keys its tagged records name, and stamps
      each of them with the sync time. */
  lemma {:induction false} UpsertFrame(store: AnimalStore, farmId: string, animals: seq<NormalizedAnimal>, now: int)
    ensures var r := UpsertAnimals(store, farmId, animals, now).0;
            && UnchangedOutside(store, r, TaggedKeys(farmId, animals))
            && forall k :: k in TaggedKeys(farmId, animals) ==> k in r && r[k].syncedAt == Some(now)
    decreases |animals|
  {
    if animals != [] {
      var a := animals[0];
      var s1 := if a.earTagNumber != "" then UpsertAnimal(store, farmId, a, now) else store;
      UpsertFrame(s1, farmId, animals[1..], now);
      TaggedKeysCons(farmId, animals);
    }
  }

  /** An animal already in the table keeps its species, gender, birth date,
      mother and status; an animal the sync creates is active. */
  lemma {:induction false} UpsertKeepsIdentity(store: AnimalStore, farmId: string, animals: seq<NormalizedAnimal>, now: int)
    ensures var r := UpsertAnimals(store, farmId, animals, now).0;
            && (forall k :: k in store ==> k in r && SameIdentity(store[k], r[k]))
            && (forall k :: k in r && k !in store ==> r[k].status == Active)
    decreases |animals|
  {
    if animals != [] {
      var a := animals[0];
      var s1 := if a.earTagNumber != "" then UpsertAnimal(store, farmId, a, now) else store;
      UpsertKeepsIdentity(s1, farmId, animals[1..], now);
    }
  }

  /** The registry id and breed of an animal are those of the last record
      that names it. */
  lemma {:induction false} UpsertLastRecordWins(store: AnimalStore, farmId: string, animals: seq<NormalizedAnimal>, now: int, i: nat)
    requires i < |animals| && animals[i].earTagNumber != ""
    requires forall j :: i < j < |animals| ==> animals[j].earTagNumber != animals[i].earTagNumber
    ensures var r := UpsertAnimals(store, farmId, animals, now).0;
            var k := AnimalKey(farmId, animals[i].earTagNumber);
            k in r && r[k].irzId == Some(animals[i].irzId) && r[k].breed == animals[i].breed
    decreases |animals|
  {
    var a := animals[0];
    var s1 := if a.earTagNumber != "" then UpsertAnimal(store, farmId, a, now) else store;
    var k := AnimalKey(farmId, animals[i].earTagNumber);
    if i == 0 {
      UpsertFrame(s1, farmId, animals[1..], now);
    } else {
      assert animals[1..][i - 1] == animals[i];
      assert forall j :: i - 1 < j < |animals[1..]| ==> animals[1..][j] == animals[j + 1];
      UpsertLastRecordWins(s1, farmId, animals[1..], now, i - 1);
    }
  }

  /** An animal the sync creates takes its species, gender, birth date and
      mother from the first record that names it (an empty birth date is
      stored as null). */
  lemma {:induction false} UpsertFirstRecordCreates(store: AnimalStore, farmId: string, animals: seq<NormalizedAnimal>, now: int, i: nat)
    requires i < |animals| && animals[i].earTagNumber != ""
    requires AnimalKey(farmId, animals[i].earTagNumber) !in store
    requires forall j :: 0 <= j < i ==> animals[j].earTagNumber != animals[i].earTagNumber
    ensures var r := UpsertAnimals(store, farmId, animals, now).0;
            var k := AnimalKey(farmId, animals[i].earTagNumber);
            k in r && r[k].species == animals[i].species && r[k].gender == animals[i].gender
            && r[k].birthDate == OrNull(animals[i].birthDate) && r[k].motherEarTag == animals[i].motherEarTag
    decreases |animals|
  {
    var a := animals[0];
    var s1 := if a.earTagNumber != "" then UpsertAnimal(store, farmId, a, now) else store;
    if i == 0 {
      UpsertKeepsIdentity(s1, farmId, animals[1..], now);
    } else {
      assert animals[1..][i - 1] == animals[i];
      assert forall j :: 0 <= j < i - 1 ==> animals[1..][j] == animals[j + 1];
      UpsertFirstRecordCreates(s1, farmId, animals[1..], now, i - 1);
    }
  }

  // ---------------------------------------------------------------------
  // Sync log
  // ---------------------------------------------------------------------

  /** The job's sync-log row. */
  datatype SyncLog = SyncLog(status: SyncStatus, entitiesSynced: nat, errorMessage: Option<string>, completedAt: Option<int>)

  /** `updateSyncStatus` of `row` at time `now`: the job is complete in
      every status but IN_PROGRESS. A missing message is passed as
      `undefined`, which the database leaves as it was. */
  function UpdateSyncStatus(row: SyncLog, status: SyncStatus, entitiesSynced: nat, errorMessage: Option<string>, now: int): (r: SyncLog)
    ensures r.status == status && r.entitiesSynced == entitiesSynced
    ensures errorMessage.Some? ==> r.errorMessage == errorMessage
    ensures errorMessage.None? ==> r.errorMessage == row.errorMessage
    ensures r.completedAt.None? <==> status == InProgress
    ensures r.completedAt.Some? ==> r.completedAt.value == now
  {
    SyncLog(status, entitiesSynced, if errorMessage.Some? then errorMessage else row.errorMessage,
            if status != InProgress then Some(now) else None)
  }

  /** The row as the sync service creates it before queueing the job:
      pending, with no message. */
  const CreatedLog := SyncLog(SyncPending, 0, None, None)

  /** The row once the job has started. */
  function StartedLog(now: int): SyncLog {
    UpdateSyncStatus(CreatedLog, InProgress, 0, None, now)
  }

  // ---------------------------------------------------------------------
  // The stored password
  // ---------------------------------------------------------------------

  /** How the farm service stores the registry password: the UTF-8 bytes,
      as base64. */
  function EncodePassword(p: string): (r: string)
    ensures |r| % 4 == 0
  {
    Base64.Encode(Utf8.Encode(p))
  }

  /** `decryptPassword`: base64, then UTF-8. Malformed input is rejected
      here rather than decoded leniently. */
  function DecryptPassword(e: string): Option<string> {
    match Base64.Decode(e)
    case None => None
    case Some(bytes) => Utf8.Decode(bytes)
  }

  /** Decoding inverts the stored encoding, and accepts nothing else: a
      stored text decodes exactly when it is the encoding of the result. */
  lemma PasswordRoundTrip(p: string, e: string)
    ensures DecryptPassword(EncodePassword(p)) == Some(p)
    ensures DecryptPassword(e) == Some(p) ==> EncodePassword(p) == e
  {
    Base64.DecodeEncode(Utf8.Encode(p));
    Utf8.DecodeEncode(p);
    if DecryptPassword(e) == Some(p) {
      var bytes := Base64.Decode(e).value;
      Base64.EncodeDecode(e);
      Utf8.EncodeDecode(bytes);
    }
  }

  // ---------------------------------------------------------------------
  // The job
  // ---------------------------------------------------------------------

  /** What the three category fetches returned: the list, or the message
      the fetch (or the token request before it) failed with. */
  datatype Fetches = Fetches(
    individual: Result<seq<NormalizedAnimal>, string>,
    pigs: Result<seq<NormalizedAnimal>, string>,
    horses: Result<seq<NormalizedHorse>, string>)

  /** The end state of one job: its result (the count, or the message it
      failed with), the progress values reported, the animal table, the
      farm row, and the sync-log row. */
  datatype JobState = JobState(
    result: Result<nat, string>,
    progress: seq<nat>,
    store: AnimalStore,
    farm: Option<Farm>,
    log: SyncLog)

  const FarmNotFound := "Gospodarstwo nie znalezione"
  const NoCredentials := "Brak danych logowania IRZ+"

  /** The full progress trace of a successful job. */
  const FullProgress: seq<nat> := [10, 20, 40, 60, 80, 95, 100]

  function HorseAnimals(hs: seq<NormalizedHorse>): (r: seq<NormalizedAnimal>)
    ensures |r| == |hs| && forall i :: 0 <= i < |hs| ==> r[i] == hs[i].animal
  {
    seq(|hs|, i requires 0 <= i < |hs| => hs[i].animal)
  }

  /** What the job collected: each category that succeeded, in order;
      a category that failed contributes nothing. */
  function Collected(f: Fetches): seq<NormalizedAnimal> {
    (if f.individual.Ok? then f.individual.value else [])
    + (if f.pigs.Ok? then f.pigs.value else [])
    + (if f.horses.Ok? then HorseAnimals(f.horses.value) else [])
  }

  /** The farm was found and its owner has a registry login and password. */
  predicate Credentialed(farm: Option<Farm>) {
    farm.Some? && Truthy(farm.value.irzLogin) && Truthy(farm.value.irzPassEnc)
  }

  /** A record whose upsert the database rejects: it is written (it has an
      ear tag) and its birth date is text that `new Date` cannot parse, so
      the create payload holds an invalid date. `parsesDate` stands for the
      date parser. */
  predicate WriteRejected(a: NormalizedAnimal, parsesDate: string -> bool) {
    a.earTagNumber != "" && Truthy(a.birthDate) && !parsesDate(a.birthDate.value)
  }

  /** The position of the first record whose upsert is rejected. */
  function FirstRejected(animals: seq<NormalizedAnimal>, parsesDate: string -> bool): (r: Option<nat>)
    ensures r.Some? ==> r.value < |animals| && WriteRejected(animals[r.value], parsesDate)
    ensures r.Some? ==> forall j :: 0 <= j < r.value ==> !WriteRejected(animals[j], parsesDate)
    ensures r.None? ==> forall j :: 0 <= j < |animals| ==> !WriteRejected(animals[j], parsesDate)
  {
    if animals == [] then None
    else if WriteRejected(animals[0], parsesDate) then Some(0)
    else
      match FirstRejected(animals[1..], parsesDate)
      case None => None
      case Some(i) => Some(i + 1)
  }

  /** `process`, with the farm as read (with its owner's credentials) and
      the category fetches as inputs, at time `now`. The upserts run one by
      one outside a transaction: when the database rejects one, with the
      message `rejection`, the rows written before it stay written and the
      job fails at progress 80. */
  function Process(farm: Option<Farm>, store: AnimalStore, farmId: string, f: Fetches, now: int,
                   parsesDate: string -> bool, rejection: string): (r: JobState)
    ensures r.result.Ok? <==> Credentialed(farm) && FirstRejected(Collected(f), parsesDate).None?
    ensures r.result.Ok? ==>
      && r.result.value == CountTagged(Collected(f))
      && r.progress == FullProgress
      && r.log == SyncLog(Completed, r.result.value, None, Some(now))
      && r.farm == Some(farm.value.(lastSyncAt := Some(now), syncStatus := Completed))
      && r.store == UpsertAnimals(store, farmId, Collected(f), now).0
    ensures !Credentialed(farm) ==>
      && r.result == Err(if farm.None? then FarmNotFound else NoCredentials)
      && r.progress == [10]
      && r.log == SyncLog(Failed, 0, Some(r.result.error), Some(now))
      && r.store == store
      && (farm.Some? ==> r.farm == Some(farm.value.(syncStatus := Failed)))
      && (farm.None? ==> r.farm == None)
    ensures Credentialed(farm) && FirstRejected(Collected(f), parsesDate).Some? ==>
      var i := FirstRejected(Collected(f), parsesDate).value;
      && r.result == Err(rejection)
      && r.progress == [10, 20, 40, 60, 80]
      && r.log == SyncLog(Failed, 0, Some(rejection), Some(now))
      && r.store == UpsertAnimals(store, farmId, Collected(f)[..i], now).0
      && r.farm == Some(farm.value.(syncStatus := Failed))
  {
    if farm.None? then Fail(farm, store, FarmNotFound, [10], now)
    else if !Truthy(farm.value.irzLogin) || !Truthy(farm.value.irzPassEnc) then Fail(farm, store, NoCredentials, [10], now)
    else
      var all := Collected(f);
      match FirstRejected(all, parsesDate)
      case Some(i) =>
        Fail(farm, UpsertAnimals(store, farmId, all[..i], now).0, rejection, [10, 20, 40, 60, 80], now)
      case None =>
        var (s, synced) := UpsertAnimals(store, farmId, all, now);
        JobState(Ok(synced), FullProgress, s,
                 Some(farm.value.(lastSyncAt := Some(now), syncStatus := Completed)),
                 UpdateSyncStatus(StartedLog(now), Completed, synced, None, now))
  }

  /** A rejected upsert leaves the rows of the records before it written
      and stamped, and every other row as it was. */
  lemma RejectedWriteKeepsEarlierRows(farm: Option<Farm>, store: AnimalStore, farmId: string, f: Fetches, now: int,
                                      parsesDate: string -> bool, rejection: string)
    requires Credentialed(farm) && FirstRejected(Collected(f), parsesDate).Some?
    ensures var i := FirstRejected(Collected(f), parsesDate).value;
            var before := TaggedKeys(farmId, Collected(f)[..i]);
            var r := Process(farm, store, farmId, f, now, parsesDate, rejection).store;
            && UnchangedOutside(store, r, before)
            && forall k :: k in before ==> k in r && r[k].syncedAt == Some(now)
  {
    var i := FirstRejected(Collected(f), parsesDate).value;
    UpsertFrame(store, farmId, Collected(f)[..i], now);
  }

  /** The `catch` of `process`: the log and the farm are marked failed. */
  function Fail(farm: Option<Farm>, store: AnimalStore, message: string, progress: seq<nat>, now: int): (r: JobState)
    ensures r.result == Err(message) && r.store == store && r.progress == progress
    ensures r.log.status == Failed && r.log.entitiesSynced == 0 && r.log.errorMessage == Some(message)
  {
    JobState(Err(message), progress, store,
             if farm.Some? then Some(farm.value.(syncStatus := Failed)) else None,
             UpdateSyncStatus(StartedLog(now), Failed, 0, Some(message), now))
  }

  /** The progress values only ever rise, whatever the job's outcome. */
  lemma ProgressIncreasing(farm: Option<Farm>, store: AnimalStore, farmId: string, f: Fetches, now: int,
                           parsesDate: string -> bool, rejection: string)
    ensures var p := Process(farm, store, farmId, f, now, parsesDate, rejection).progress;
            forall i, j :: 0 <= i < j < |p| ==> p[i] < p[j]
  {
  }

  /** A category whose fetch failed is swallowed: the job ends exactly as
      if that category had been empty. */
  lemma FailedCategoryActsAsEmpty(farm: Option<Farm>, store: AnimalStore, farmId: string, f: Fetches, now: int, e: string,
                                  parsesDate: string -> bool, rejection: string)
    ensures Process(farm, store, farmId, f.(individual := Err(e)), now, parsesDate, rejection)
            == Process(farm, store, farmId, f.(individual := Ok([])), now, parsesDate, rejection)
    ensures Process(farm, store, farmId, f.(pigs := Err(e)), now, parsesDate, rejection)
            == Process(farm, store, farmId, f.(pigs := Ok([])), now, parsesDate, rejection)
    ensures Process(farm, store, farmId, f.(horses := Err(e)), now, parsesDate, rejection)
            == Process(farm, store, farmId, f.(horses := Ok([])), now, parsesDate, rejection)
  {
    assert Collected(f.(horses := Ok([]))) == Collected(f.(horses := Err(e)));
  }
}
