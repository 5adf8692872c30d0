/** The dashboard: the farm's counters, the recent-activity feed and the
    reporting reminders. Times are milliseconds since the epoch. */
module Dashboard {
  import opened Wrappers
  import opened Text
  import opened Domain

  // ---------------------------------------------------------------------
  // Day arithmetic
  // ---------------------------------------------------------------------

  const Day: int := 24 * 60 * 60 * 1000

  /** `Math.floor(x / Day)`. */
  function FloorDays(x: int): (r: int)
    ensures r * Day <= x < (r + 1) * Day
  {
    x / Day
  }

  /** `Math.ceil(x / Day)`. */
  function CeilDays(x: int): (r: int)
    ensures (r - 1) * Day < x <= r * Day
  {
    -((-x) / Day)
  }

  // ---------------------------------------------------------------------
  // Sorting
  // ---------------------------------------------------------------------

  predicate SortedBy<T>(s: seq<T>, key: T -> int) {
    forall i, j :: 0 <= i < j < |s| ==> key(s[i]) <= key(s[j])
  }

  /** Inserts `x` after every element whose key is not greater. */
  function InsertBy<T>(x: T, s: seq<T>, key: T -> int): (r: seq<T>)
    requires SortedBy(s, key)
    ensures SortedBy(r, key)
    ensures multiset(r) == multiset(s) + multiset{x}
    ensures |r| == |s| + 1
    ensures r[0] == x || (s != [] && r[0] == s[0])
  {
    if s == [] then [x]
    else if key(x) < key(s[0]) then [x] + s
    else
      var rest := InsertBy(x, s[1..], key);
      assert s == [s[0]] + s[1..];
      assert key(s[0]) <= key(rest[0]);
      [s[0]] + rest
  }

  /** `Array.prototype.sort` with the comparator `(a, b) => key(a) - key(b)`;
      the sort is stable, so elements with equal keys keep their order. */
  function SortBy<T>(xs: seq<T>, key: T -> int): (r: seq<T>)
    ensures SortedBy(r, key)
    ensures multiset(r) == multiset(xs)
    decreases |xs|
  {
    if xs == [] then []
    else
      assert xs == xs[..|xs| - 1] + [xs[|xs| - 1]];
      InsertBy(xs[|xs| - 1], SortBy(xs[..|xs| - 1], key), key)
  }

  // ---------------------------------------------------------------------
  // Reminders
  // ---------------------------------------------------------------------

  datatype ReminderKind = BirthReminder | DeathReminder | TransferReminder

  datatype Reminder = Reminder(
    id: string,
    kind: ReminderKind,
    message: string,
    dueDate: int,
    daysLeft: int,
    animalId: Option<string>,
    earTagNumber: Option<string>)

  /** An animal of the farm as the birth query sees it: its status, its
      birth time if recorded, and how many birth reports name it. */
  datatype BirthCandidate = BirthCandidate(
    id: string, earTagNumber: string, status: AnimalStatus, birthDate: Option<int>, birthReports: nat)

  /** The query's filter: active, and born no earlier than 14 days ago. */
  predicate RecentlyBorn(a: BirthCandidate, now: int) {
    a.status == Active && a.birthDate.Some? && a.birthDate.value >= now - 14 * Day
  }

  function BirthDaysLeft(birth: int, now: int): (d: int)
    ensures (d - 1) * Day < birth + 7 * Day - now <= d * Day
  {
    CeilDays(birth + 7 * Day - now)
  }

  function BirthMessage(daysLeft: int): (r: string)
    ensures daysLeft > 0 ==> r == "Zgłoś urodzenie w ciągu " + IntToString(daysLeft) + " dni"
    ensures daysLeft <= 0 ==> r == "Termin zgłoszenia urodzenia minął " + IntToString(-daysLeft) + " dni temu!"
  {
    if daysLeft > 0 then "Zgłoś urodzenie w ciągu " + IntToString(daysLeft) + " dni"
    else "Termin zgłoszenia urodzenia minął " + IntToString(-daysLeft) + " dni temu!"
  }

  /** The reminder for one animal of the query, if it gets one. */
  function BirthReminderFor(a: BirthCandidate, now: int): (r: Option<Reminder>)
    requires RecentlyBorn(a, now)
    ensures r.Some? <==> a.birthReports == 0 && -7 <= BirthDaysLeft(a.birthDate.value, now) <= 7
    ensures r.Some? ==>
      && r.value.kind == BirthReminder
      && r.value.id == "birth-" + a.id
      && r.value.dueDate == a.birthDate.value + 7 * Day
      && r.value.daysLeft == BirthDaysLeft(a.birthDate.value, now)
      && r.value.message == BirthMessage(r.value.daysLeft)
      && r.value.earTagNumber == Some(a.earTagNumber)
  {
    if a.birthReports != 0 then None
    else
      var birth := a.birthDate.value;
      var d := BirthDaysLeft(birth, now);
      if d <= 7 && d >= -7 then
        Some(Reminder("birth-" + a.id, BirthReminder, BirthMessage(d), birth + 7 * Day, d, Some(a.id), Some(a.earTagNumber)))
      else None
  }

  /** Over the animals the query returns, the window's lower bound never
      excludes one: an animal gets a reminder exactly when it has no birth
      report and was not born in the future. */
  lemma BirthReminderWindow(a: BirthCandidate, now: int)
    requires RecentlyBorn(a, now)
    ensures BirthDaysLeft(a.birthDate.value, now) >= -7
    ensures BirthReminderFor(a, now).Some? <==> a.birthReports == 0 && a.birthDate.value <= now
  {
    var x := a.birthDate.value + 7 * Day - now;
    var d := BirthDaysLeft(a.birthDate.value, now);
    assert x >= -7 * Day;
    if a.birthDate.value <= now {
      assert x <= 7 * Day;
    } else {
      assert x > 7 * Day;
    }
  }

  function BirthReminders(animals: seq<BirthCandidate>, now: int): (r: seq<Reminder>)
    ensures forall i :: 0 <= i < |r| ==> r[i].kind == BirthReminder && -7 <= r[i].daysLeft <= 7
    ensures |r| <= |animals|
  {
    if animals == [] then []
    else
      BirthReminderOf(animals[0], now) + BirthReminders(animals[1..], now)
  }

  /** The reminder one animal of the list gets, if any. */
  function BirthReminderOf(a: BirthCandidate, now: int): (r: seq<Reminder>)
    ensures |r| <= 1
    ensures forall i :: 0 <= i < |r| ==> r[i].kind == BirthReminder && -7 <= r[i].daysLeft <= 7
  {
    if RecentlyBorn(a, now) && BirthReminderFor(a, now).Some? then [BirthReminderFor(a, now).value] else []
  }

  /** The birth reminders of a list are those of its parts, in order. */
  lemma {:induction false} BirthRemindersAppend(a: seq<BirthCandidate>, b: seq<BirthCandidate>, now: int)
    ensures BirthReminders(a + b, now) == BirthReminders(a, now) + BirthReminders(b, now)
  {
    if a == [] {
      assert a + b == b;
    } else {
      assert (a + b)[0] == a[0];
      assert (a + b)[1..] == a[1..] + b;
      BirthRemindersAppend(a[1..], b, now);
    }
  }

  /** A reminder is listed exactly when some animal the query returns gets
      it: every unreported animal in the window has its reminder. */
  lemma {:induction false} BirthRemindersContents(animals: seq<BirthCandidate>, now: int)
    ensures forall x :: x in BirthReminders(animals, now) <==>
              exists i :: 0 <= i < |animals| && RecentlyBorn(animals[i], now) && BirthReminderFor(animals[i], now) == Some(x)
  {
    if animals != [] {
      var rest := animals[1..];
      BirthRemindersContents(rest, now);
      forall x ensures x in BirthReminders(animals, now) <==>
                 exists i :: 0 <= i < |animals| && RecentlyBorn(animals[i], now) && BirthReminderFor(animals[i], now) == Some(x)
      {
        if x in BirthReminders(rest, now) {
          var i :| 0 <= i < |rest| && RecentlyBorn(rest[i], now) && BirthReminderFor(rest[i], now) == Some(x);
          assert rest[i] == animals[i + 1];
        }
        if exists i :: 0 <= i < |animals| && RecentlyBorn(animals[i], now) && BirthReminderFor(animals[i], now) == Some(x) {
          var i :| 0 <= i < |animals| && RecentlyBorn(animals[i], now) && BirthReminderFor(animals[i], now) == Some(x);
          if i > 0 {
            assert rest[i - 1] == animals[i];
          }
        }
      }
    }
  }

  /** A report of the farm as the draft queries see it. */
  datatype DraftDoc = DraftDoc(
    id: string, docType: DocumentType, status: DocumentStatus, createdAt: int,
    animalId: Option<string>, earTagNumber: Option<string>)

  function DraftDaysLeft(createdAt: int, now: int): (d: int)
    ensures (7 - d) * Day <= now - createdAt < (8 - d) * Day
  {
    7 - FloorDays(now - createdAt)
  }

  /** The death reports the query returns: drafts older than three days. */
  predicate StaleDeathDraft(d: DraftDoc, now: int) {
    d.docType == DeathReport && d.status == Draft && d.createdAt < now - 3 * Day
  }

  predicate TransferDraft(d: DraftDoc) {
    d.docType == TransferReport && d.status == Draft
  }

  function DraftReminder(kind: ReminderKind, prefix: string, what: string, d: DraftDoc, now: int): (r: Reminder)
    ensures r.kind == kind && r.id == prefix + d.id
    ensures r.dueDate == d.createdAt + 7 * Day
    ensures r.daysLeft == DraftDaysLeft(d.createdAt, now)
    ensures r.message == "Wyślij zgłoszenie " + what + " (utworzone " + IntToString(7 - r.daysLeft) + " dni temu)"
    ensures r.animalId == OrNull(d.animalId) && r.earTagNumber == d.earTagNumber
  {
    var daysOld := FloorDays(now - d.createdAt);
    Reminder(prefix + d.id, kind, "Wyślij zgłoszenie " + what + " (utworzone " + IntToString(daysOld) + " dni temu)",
             d.createdAt + 7 * Day, 7 - daysOld, OrNull(d.animalId), d.earTagNumber)
  }

  /** A death reminder is due in at most four days: the query only returns
      drafts more than three days old. */
  lemma DeathReminderAtMostFourDays(d: DraftDoc, now: int)
    requires StaleDeathDraft(d, now)
    ensures DraftReminder(DeathReminder, "death-", "padnięcia", d, now).daysLeft <= 4
  {
    var days := DraftDaysLeft(d.createdAt, now);
    assert now - d.createdAt > 3 * Day;
  }

  function DeathReminders(docs: seq<DraftDoc>, now: int): (r: seq<Reminder>)
    ensures forall i :: 0 <= i < |r| ==> r[i].kind == DeathReminder && r[i].daysLeft <= 4
    ensures |r| <= |docs|
  {
    if docs == [] then []
    else
      DeathReminderOf(docs[0], now) + DeathReminders(docs[1..], now)
  }

  /** The reminder one draft of the list gets, if any. */
  function DeathReminderOf(d: DraftDoc, now: int): (r: seq<Reminder>)
    ensures |r| <= 1
    ensures forall i :: 0 <= i < |r| ==> r[i].kind == DeathReminder && r[i].daysLeft <= 4
  {
    if StaleDeathDraft(d, now) then
      DeathReminderAtMostFourDays(d, now);
      [DraftReminder(DeathReminder, "death-", "padnięcia", d, now)]
    else []
  }

  lemma {:induction false} DeathRemindersAppend(a: seq<DraftDoc>, b: seq<DraftDoc>, now: int)
    ensures DeathReminders(a + b, now) == DeathReminders(a, now) + DeathReminders(b, now)
  {
    if a == [] {
      assert a + b == b;
    } else {
      assert (a + b)[0] == a[0];
      assert (a + b)[1..] == a[1..] + b;
      DeathRemindersAppend(a[1..], b, now);
    }
  }

  /** Every death draft older than three days has its reminder, and there
      is no other. */
  lemma {:induction false} DeathRemindersContents(docs: seq<DraftDoc>, now: int)
    ensures forall x :: x in DeathReminders(docs, now) <==>
              exists i :: 0 <= i < |docs| && StaleDeathDraft(docs[i], now)
                          && x == DraftReminder(DeathReminder, "death-", "padnięcia", docs[i], now)
  {
    if docs != [] {
      var rest := docs[1..];
      DeathRemindersContents(rest, now);
      forall x ensures x in DeathReminders(docs, now) <==>
                 exists i :: 0 <= i < |docs| && StaleDeathDraft(docs[i], now)
                             && x == DraftReminder(DeathReminder, "death-", "padnięcia", docs[i], now)
      {
        if x in DeathReminders(rest, now) {
          var i :| 0 <= i < |rest| && StaleDeathDraft(rest[i], now)
                   && x == DraftReminder(DeathReminder, "death-", "padnięcia", rest[i], now);
          assert rest[i] == docs[i + 1];
        }
        if exists i :: 0 <= i < |docs| && StaleDeathDraft(docs[i], now)
                       && x == DraftReminder(DeathReminder, "death-", "padnięcia", docs[i], now) {
          var i :| 0 <= i < |docs| && StaleDeathDraft(docs[i], now)
                   && x == DraftReminder(DeathReminder, "death-", "padnięcia", docs[i], now);
          if i > 0 {
            assert rest[i - 1] == docs[i];
          }
        }
      }
    }
  }

  function TransferReminders(docs: seq<DraftDoc>, now: int): (r: seq<Reminder>)
    ensures forall i :: 0 <= i < |r| ==> r[i].kind == TransferReminder
    ensures |r| == |Filter(docs)|
  {
    if docs == [] then []
    else
      var d := docs[0];
      var here := if TransferDraft(d) then [DraftReminder(TransferReminder, "transfer-", "przemieszczenia", d, now)] else [];
      here + TransferReminders(docs[1..], now)
  }

  /** The drafts the transfer query returns. */
  function Filter(docs: seq<DraftDoc>): (r: seq<DraftDoc>)
    ensures forall i :: 0 <= i < |r| ==> TransferDraft(r[i])
  {
    if docs == [] then [] else (if TransferDraft(docs[0]) then [docs[0]] else []) + Filter(docs[1..])
  }

  /** The transfer reminders are the transfer drafts' reminders, one each,
      in the order of the drafts. */
  lemma {:induction false} TransferRemindersOfDrafts(docs: seq<DraftDoc>, now: int)
    ensures |TransferReminders(docs, now)| == |Filter(docs)|
    ensures forall i :: 0 <= i < |Filter(docs)| ==>
              TransferReminders(docs, now)[i] == DraftReminder(TransferReminder, "transfer-", "przemieszczenia", Filter(docs)[i], now)
  {
    if docs != [] {
      TransferRemindersOfDrafts(docs[1..], now);
    }
  }

  lemma {:induction false} FilterAppend(a: seq<DraftDoc>, b: seq<DraftDoc>)
    ensures Filter(a + b) == Filter(a) + Filter(b)
  {
    if a == [] {
      assert a + b == b;
    } else {
      assert (a + b)[0] == a[0];
      assert (a + b)[1..] == a[1..] + b;
      FilterAppend(a[1..], b);
    }
  }

  /** The transfer query keeps exactly the transfer drafts, each as often
      as it occurs. */
  lemma {:induction false} FilterContents(docs: seq<DraftDoc>)
    ensures forall d :: multiset(Filter(docs))[d] == if TransferDraft(d) then multiset(docs)[d] else 0
  {
    if docs != [] {
      FilterContents(docs[1..]);
      assert docs == [docs[0]] + docs[1..];
    }
  }

  function DaysLeftOf(r: Reminder): int { r.daysLeft }

  /** `getReminders`: birth, death and transfer reminders, the most urgent
      first. */
  function GetReminders(animals: seq<BirthCandidate>, docs: seq<DraftDoc>, now: int): (r: seq<Reminder>)
    ensures SortedBy(r, DaysLeftOf)
    ensures multiset(r) == multiset(BirthReminders(animals, now) + DeathReminders(docs, now) + TransferReminders(docs, now))
  {
    SortBy(BirthReminders(animals, now) + DeathReminders(docs, now) + TransferReminders(docs, now), DaysLeftOf)
  }

  // ---------------------------------------------------------------------
  // Recent activity
  // ---------------------------------------------------------------------

  datatype ActivityKind = SyncActivity | DocumentActivity

  datatype ActivityItem = ActivityItem(id: string, kind: ActivityKind, action: string, description: string, createdAt: int)

  /** A sync-log row of the farm. */
  datatype SyncLogRow = SyncLogRow(id: string, status: SyncStatus, entitiesSynced: nat, errorMessage: Option<string>, startedAt: int)

  /** A document of the farm with the ear tag of its animal, if any. */
  datatype DocRow = DocRow(id: string, docType: DocumentType, createdAt: int, earTagNumber: Option<string>)

  function SyncItem(log: SyncLogRow): (r: ActivityItem)
    ensures r.id == log.id && r.kind == SyncActivity && r.createdAt == log.startedAt
    ensures log.status == Completed ==>
              r.action == "Synchronizacja zakończona" && r.description == "Zsynchronizowano " + NatToString(log.entitiesSynced) + " zwierząt"
    ensures log.status != Completed ==>
              r.action == "Synchronizacja" && r.description == OrElse(log.errorMessage, "W trakcie...")
  {
    if log.status == Completed then
      ActivityItem(log.id, SyncActivity, "Synchronizacja zakończona",
                   "Zsynchronizowano " + NatToString(log.entitiesSynced) + " zwierząt", log.startedAt)
    else
      ActivityItem(log.id, SyncActivity, "Synchronizacja", OrElse(log.errorMessage, "W trakcie..."), log.startedAt)
  }

  /** The label of a document type, or its name when it has none. */
  function TypeLabel(t: DocumentType): (r: string)
    ensures t.DeathReport? ==> r == "Zgłoszenie padnięcia"
    ensures t.BirthReport? ==> r == "Zgłoszenie urodzenia"
    ensures t.TransferReport? ==> r == "Zgłoszenie przemieszczenia"
    ensures !(t.DeathReport? || t.BirthReport? || t.TransferReport?) ==> r == DocumentTypeName(t)
  {
    match t
    case DeathReport => "Zgłoszenie padnięcia"
    case BirthReport => "Zgłoszenie urodzenia"
    case TransferReport => "Zgłoszenie przemieszczenia"
    case _ => DocumentTypeName(t)
  }

  function DocItem(doc: DocRow): (r: ActivityItem)
    ensures r.id == doc.id && r.kind == DocumentActivity && r.createdAt == doc.createdAt
    ensures r.action == TypeLabel(doc.docType)
    ensures Truthy(doc.earTagNumber) ==> r.description == "Zwierzę: " + doc.earTagNumber.value
    ensures !Truthy(doc.earTagNumber) ==> r.description == "Dokument utworzony"
  {
    ActivityItem(doc.id, DocumentActivity, TypeLabel(doc.docType),
                 if Truthy(doc.earTagNumber) then "Zwierzę: " + doc.earTagNumber.value else "Dokument utworzony",
                 doc.createdAt)
  }

  function Take<T>(xs: seq<T>, n: nat): (r: seq<T>)
    ensures |r| == if |xs| <= n then |xs| else n
    ensures r == xs[..|r|]
  {
    if |xs| <= n then xs else xs[..n]
  }

  function NegCreatedAt(a: ActivityItem): int { -a.createdAt }

  function SyncItems(logs: seq<SyncLogRow>): (r: seq<ActivityItem>)
    ensures |r| == |logs| && forall i :: 0 <= i < |logs| ==> r[i] == SyncItem(logs[i])
  {
    seq(|logs|, i requires 0 <= i < |logs| => SyncItem(logs[i]))
  }

  function DocItems(docs: seq<DocRow>): (r: seq<ActivityItem>)
    ensures |r| == |docs| && forall i :: 0 <= i < |docs| ==> r[i] == DocItem(docs[i])
  {
    seq(|docs|, i requires 0 <= i < |docs| => DocItem(docs[i]))
  }

  /** `getRecentActivity`, over the sync logs newest first and the
      documents newest first: the five latest of each, newest first, cut to
      ten. */
  function RecentActivity(logs: seq<SyncLogRow>, docs: seq<DocRow>): (r: seq<ActivityItem>)
    ensures |r| <= 10
    ensures forall i, j :: 0 <= i < j < |r| ==> r[i].createdAt >= r[j].createdAt
    ensures multiset(r) == multiset(SyncItems(Take(logs, 5)) + DocItems(Take(docs, 5)))
  {
    var merged := SyncItems(Take(logs, 5)) + DocItems(Take(docs, 5));
    var sorted := SortBy(merged, NegCreatedAt);
    assert |sorted| == |merged| by {
      assert |multiset(sorted)| == |multiset(merged)|;
    }
    Take(sorted, 10)
  }

  // ---------------------------------------------------------------------
  // Counters
  // ---------------------------------------------------------------------

  /** The farm's sync state, when the farm exists. */
  datatype FarmSync = FarmSync(lastSyncAt: Option<int>, syncStatus: SyncStatus)

  datatype Stats = Stats(
    animalsCount: nat,
    animalsBySpecies: map<Species, nat>,
    pendingDocuments: nat,
    submittedDocuments: nat,
    lastSyncAt: Option<int>,
    syncStatus: string)

  function CountActive(animals: seq<(Species, AnimalStatus)>): nat {
    if animals == [] then 0 else (if animals[0].1 == Active then 1 else 0) + CountActive(animals[1..])
  }

  function CountActiveOf(animals: seq<(Species, AnimalStatus)>, s: Species): nat {
    if animals == [] then 0
    else (if animals[0] == (s, Active) then 1 else 0) + CountActiveOf(animals[1..], s)
  }

  function CountStatus(docs: seq<DocumentStatus>, st: DocumentStatus): nat {
    if docs == [] then 0 else (if docs[0] == st then 1 else 0) + CountStatus(docs[1..], st)
  }

  const AllSpecies: seq<Species> := [Cattle, Sheep, Goat, Pig, Poultry, Horse, Deer, Camel]

  /** Every species is listed. */
  lemma AllSpeciesListed()
    ensures forall s: Species :: s in AllSpecies
  {
    forall s: Species ensures s in AllSpecies {
      match s
      case Cattle => assert AllSpecies[0] == s;
      case Sheep => assert AllSpecies[1] == s;
      case Goat => assert AllSpecies[2] == s;
      case Pig => assert AllSpecies[3] == s;
      case Poultry => assert AllSpecies[4] == s;
      case Horse => assert AllSpecies[5] == s;
      case Deer => assert AllSpecies[6] == s;
      case Camel => assert AllSpecies[7] == s;
    }
  }

  /** `getStats`, over the farm's animals (species and status) and the
      statuses of its documents. A missing farm reads as never synced and
      PENDING. */
  function GetStats(farm: Option<FarmSync>, animals: seq<(Species, AnimalStatus)>, docs: seq<DocumentStatus>): (r: Stats)
    ensures r.lastSyncAt == (if farm.Some? then farm.value.lastSyncAt else None)
    ensures r.syncStatus == (if farm.Some? then SyncStatusName(farm.value.syncStatus) else "PENDING")
    ensures forall s :: s in r.animalsBySpecies <==> CountActiveOf(animals, s) > 0
    ensures forall s :: s in r.animalsBySpecies ==> r.animalsBySpecies[s] == CountActiveOf(animals, s)
    ensures r.animalsCount == CountActive(animals)
    ensures r.pendingDocuments == CountStatus(docs, Draft) && r.submittedDocuments == CountStatus(docs, Submitted)
  {
    AllSpeciesListed();
    Stats(CountActive(animals),
          map s | s in AllSpecies && CountActiveOf(animals, s) > 0 :: CountActiveOf(animals, s),
          CountStatus(docs, Draft), CountStatus(docs, Submitted),
          if farm.Some? then farm.value.lastSyncAt else None,
          if farm.Some? then SyncStatusName(farm.value.syncStatus) else "PENDING")
  }

  function SumOver(animals: seq<(Species, AnimalStatus)>, species: seq<Species>): nat {
    if species == [] then 0 else CountActiveOf(animals, species[0]) + SumOver(animals, species[1..])
  }

  /** How many entries of `species` an animal is counted under. */
  function Hits(a: (Species, AnimalStatus), species: seq<Species>): nat {
    if species == [] then 0 else (if a == (species[0], Active) then 1 else 0) + Hits(a, species[1..])
  }

  lemma {:induction false} SumOverStep(animals: seq<(Species, AnimalStatus)>, species: seq<Species>)
    requires animals != []
    ensures SumOver(animals, species) == Hits(animals[0], species) + SumOver(animals[1..], species)
  {
    if species != [] {
      SumOverStep(animals, species[1..]);
    }
  }

  /** Over a list without repeats, an animal is counted at most once, and
      exactly once when it is active and its species is listed. */
  lemma {:induction false} HitsOnce(a: (Species, AnimalStatus), species: seq<Species>)
    requires forall i, j :: 0 <= i < j < |species| ==> species[i] != species[j]
    ensures Hits(a, species) == if a.0 in species && a.1 == Active then 1 else 0
  {
    if species != [] {
      HitsOnce(a, species[1..]);
      assert species == [species[0]] + species[1..];
      if a.0 == species[0] {
        assert a.0 !in species[1..];
      }
    }
  }

  lemma {:induction false} SumOverNone(species: seq<Species>)
    ensures SumOver([], species) == 0
  {
    if species != [] {
      SumOverNone(species[1..]);
    }
  }

  /** The per-species counts add up to the active count. */
  lemma {:induction false} SpeciesCountsAddUp(animals: seq<(Species, AnimalStatus)>)
    ensures SumOver(animals, AllSpecies) == CountActive(animals)
  {
    if animals == [] {
      SumOverNone(AllSpecies);
    } else {
      SumOverStep(animals, AllSpecies);
      SpeciesCountsAddUp(animals[1..]);
      AllSpeciesListed();
      HitsOnce(animals[0], AllSpecies);
    }
  }
}
