/** The animal list, the single-animal lookup and the transactional bulk
    upsert of the animals service. */
module Animals {
  import opened Wrappers
  import opened Text
  import opened Domain

  // ---------------------------------------------------------------------
  // Filters
  // ---------------------------------------------------------------------

  function StatusName(s: AnimalStatus): string {
    match s
    case Active => "ACTIVE"
    case Deceased => "DECEASED"
    case Sold => "SOLD"
    case Slaughtered => "SLAUGHTERED"
  }

  /** The database's check of a string cast to the status enumeration. */
  function ParseStatus(name: string): (r: Option<AnimalStatus>)
    ensures r.Some? ==> StatusName(r.value) == name
    ensures r.None? ==> forall s: AnimalStatus :: StatusName(s) != name
  {
    if name == "ACTIVE" then Some(Active)
    else if name == "DECEASED" then Some(Deceased)
    else if name == "SOLD" then Some(Sold)
    else if name == "SLAUGHTERED" then Some(Slaughtered)
    else None
  }

  /** The query of the list endpoint, after validation: a page of at least
      1 and a page size between 1 and 100 when given. */
  datatype Query = Query(
    species: Option<string>,
    status: Option<string>,
    search: Option<string>,
    page: Option<int>,
    pageSize: Option<int>)

  predicate ValidQuery(q: Query) {
    (q.page.Some? ==> q.page.value >= 1)
    && (q.pageSize.Some? ==> 1 <= q.pageSize.value <= 100)
  }

  const DefaultPage := 1
  const DefaultPageSize := 20

  /** A filter as the `where` clause holds it: each part present only when
      its query string is truthy. */
  datatype Where = Where(farmId: string, species: Option<Species>, status: Option<AnimalStatus>, search: Option<string>)

  /** A row of the animal table, with its key. */
  datatype Row = Row(key: AnimalKey, animal: Animal)

  /** Case-insensitive substring test, as the database's `contains` in
      insensitive mode. */
  predicate ContainsInsensitive(s: string, pat: string) {
    Contains(Lower(s), Lower(pat))
  }

  predicate Matches(w: Where, row: Row) {
    && row.key.farmId == w.farmId
    && (w.species.Some? ==> row.animal.species == w.species.value)
    && (w.status.Some? ==> row.animal.status == w.status.value)
    && (w.search.Some? ==>
          ContainsInsensitive(row.key.earTagNumber, w.search.value)
          || (row.animal.breed.Some? && ContainsInsensitive(row.animal.breed.value, w.search.value)))
  }

  /** Builds the `where` clause; a species or status that is not a value of
      its enumeration is rejected by the database. */
  function BuildWhere(farmId: string, q: Query): (r: Result<Where, string>)
    ensures r.Ok? <==> (Truthy(q.species) ==> ParseSpecies(q.species.value).Some?)
                       && (Truthy(q.status) ==> ParseStatus(q.status.value).Some?)
    ensures r.Ok? ==> r.value.farmId == farmId
    ensures r.Ok? ==> (r.value.species.Some? <==> Truthy(q.species))
                      && (r.value.species.Some? ==> SpeciesName(r.value.species.value) == q.species.value)
    ensures r.Ok? ==> (r.value.status.Some? <==> Truthy(q.status))
                      && (r.value.status.Some? ==> StatusName(r.value.status.value) == q.status.value)
    ensures r.Ok? ==> r.value.search == OrNull(q.search)
  {
    if Truthy(q.species) && ParseSpecies(q.species.value).None? then Err(InvalidEnumMessage)
    else if Truthy(q.status) && ParseStatus(q.status.value).None? then Err(InvalidEnumMessage)
    else
      Ok(Where(farmId,
               if Truthy(q.species) then ParseSpecies(q.species.value) else None,
               if Truthy(q.status) then ParseStatus(q.status.value) else None,
               OrNull(q.search)))
  }

  const InvalidEnumMessage := "Invalid enum value"

  /** The rows that satisfy `w`, in table order. */
  function Select(w: Where, rows: seq<Row>): (r: seq<Row>)
    ensures |r| <= |rows|
    ensures forall i :: 0 <= i < |r| ==> Matches(w, r[i]) && r[i] in rows
    ensures forall row :: row in rows && Matches(w, row) ==> row in r
  {
    if rows == [] then []
    else if Matches(w, rows[0]) then [rows[0]] + Select(w, rows[1..])
    else Select(w, rows[1..])
  }

  /** Selection distributes over concatenation, so the selected rows keep
      the table's order. */
  lemma {:induction false} SelectAppend(w: Where, a: seq<Row>, b: seq<Row>)
    ensures Select(w, a + b) == Select(w, a) + Select(w, b)
  {
    if a == [] {
      assert a + b == b;
    } else {
      assert (a + b)[0] == a[0];
      assert (a + b)[1..] == a[1..] + b;
      SelectAppend(w, a[1..], b);
    }
  }

  /** Each matching row is selected as often as it occurs in the table,
      and no other row is. */
  lemma {:induction false} SelectCounts(w: Where, rows: seq<Row>)
    ensures forall row :: multiset(Select(w, rows))[row] == if Matches(w, row) then multiset(rows)[row] else 0
  {
    if rows != [] {
      SelectCounts(w, rows[1..]);
      assert rows == [rows[0]] + rows[1..];
    }
  }

  // ---------------------------------------------------------------------
  // Paging
  // ---------------------------------------------------------------------

  /** `Math.ceil(total / pageSize)` for a positive page size. */
  function CeilDiv(total: nat, pageSize: nat): (r: nat)
    requires pageSize >= 1
    ensures r * pageSize >= total
    ensures r == 0 || (r - 1) * pageSize < total
  {
    (total + pageSize - 1) / pageSize
  }

  /** The number of rows before page `page`. */
  function PageStart(page: nat, pageSize: nat): nat
    requires page >= 1
  {
    (page - 1) * pageSize
  }

  /** The rows of page `page`: `skip` then `take`. */
  function PageOf<T>(xs: seq<T>, page: nat, pageSize: nat): (r: seq<T>)
    requires page >= 1 && pageSize >= 1
    ensures |r| <= pageSize
    ensures PageStart(page, pageSize) >= |xs| ==> r == []
    ensures PageStart(page, pageSize) < |xs| ==>
              |r| == Min(pageSize, |xs| - PageStart(page, pageSize))
              && forall j :: 0 <= j < |r| ==> r[j] == xs[PageStart(page, pageSize) + j]
  {
    var skip := PageStart(page, pageSize);
    if skip >= |xs| then [] else xs[skip..Min(skip + pageSize, |xs|)]
  }

  function Min(a: int, b: int): int { if a <= b then a else b }

  /** The concatenation of pages 1 through `n`. */
  function FirstPages<T>(xs: seq<T>, n: nat, pageSize: nat): seq<T>
    requires pageSize >= 1
  {
    if n == 0 then [] else FirstPages(xs, n - 1, pageSize) + PageOf(xs, n, pageSize)
  }

  /** Reading pages 1, 2, … in turn yields the rows in order, each once:
      the first `n` pages are the rows before page `n + 1`. */
  lemma {:induction false} FirstPagesPrefix<T>(xs: seq<T>, n: nat, pageSize: nat)
    requires pageSize >= 1
    ensures FirstPages(xs, n, pageSize) == xs[..Min(PageStart(n + 1, pageSize), |xs|)]
  {
    if n > 0 {
      FirstPagesPrefix(xs, n - 1, pageSize);
      var skip := PageStart(n, pageSize);
      StartStep(n, pageSize);
      if skip < |xs| {
        assert xs[..skip] + xs[skip..Min(skip + pageSize, |xs|)] == xs[..Min(PageStart(n + 1, pageSize), |xs|)];
      }
    }
  }

  lemma StartStep(n: nat, pageSize: nat)
    requires n >= 1
    ensures PageStart(n + 1, pageSize) == PageStart(n, pageSize) + pageSize
  {
    assert n * pageSize == (n - 1) * pageSize + pageSize;
  }

  lemma StartMonotone(p: nat, n: nat, pageSize: nat)
    requires p >= 1 && pageSize >= 1
    ensures p <= n ==> PageStart(p, pageSize) <= PageStart(n, pageSize)
    ensures p > n ==> PageStart(p, pageSize) >= PageStart(n + 1, pageSize)
  {
    if p <= n {
      MulMonotone(p - 1, n - 1, pageSize);
    } else {
      MulMonotone(n, p - 1, pageSize);
    }
  }

  lemma MulMonotone(a: nat, b: nat, c: nat)
    requires a <= b
    ensures a * c <= b * c
  {
  }

  /** A page ends before every later page begins, so no row position is on
      two pages. */
  lemma PagesDisjoint<T>(xs: seq<T>, pageSize: nat, p: nat, q: nat)
    requires pageSize >= 1 && 1 <= p < q
    ensures PageStart(p, pageSize) + |PageOf(xs, p, pageSize)| <= PageStart(q, pageSize)
  {
    StartStep(p, pageSize);
    StartMonotone(q, p, pageSize);
  }

  /** The result of the list endpoint. */
  datatype Listing = Listing(items: seq<Row>, total: nat, page: nat, pageSize: nat, totalPages: nat)

  /** `findByFarm`, over the table listed newest first. */
  function FindByFarm(rows: seq<Row>, farmId: string, q: Query): (r: Result<Listing, string>)
    requires ValidQuery(q)
    ensures r.Ok? <==> BuildWhere(farmId, q).Ok?
    ensures r.Ok? ==>
      var w := BuildWhere(farmId, q).value;
      var all := Select(w, rows);
      && r.value.page == q.page.GetOr(DefaultPage)
      && r.value.pageSize == q.pageSize.GetOr(DefaultPageSize)
      && r.value.total == |all|
      && r.value.items == PageOf(all, r.value.page, r.value.pageSize)
      && r.value.totalPages * r.value.pageSize >= r.value.total
      && (r.value.totalPages == 0 || (r.value.totalPages - 1) * r.value.pageSize < r.value.total)
      && forall i :: 0 <= i < |r.value.items| ==> Matches(w, r.value.items[i]) && r.value.items[i].key.farmId == farmId
  {
    match BuildWhere(farmId, q)
    case Err(e) => Err(e)
    case Ok(w) =>
      var page := q.page.GetOr(DefaultPage);
      var pageSize := q.pageSize.GetOr(DefaultPageSize);
      var all := Select(w, rows);
      Ok(Listing(PageOf(all, page, pageSize), |all|, page, pageSize, CeilDiv(|all|, pageSize)))
  }

  /** With `totalPages` pages of `pageSize` rows, every page up to
      `totalPages` holds rows and every page after it is empty; together
      the pages list every matching row once, in order. */
  lemma PagesCover<T>(all: seq<T>, pageSize: nat, p: nat)
    requires pageSize >= 1 && p >= 1
    ensures var n := CeilDiv(|all|, pageSize);
            && (p <= n <==> PageOf(all, p, pageSize) != [])
            && FirstPages(all, n, pageSize) == all
  {
    var n := CeilDiv(|all|, pageSize);
    assert PageStart(n + 1, pageSize) >= |all|;
    assert n > 0 ==> PageStart(n, pageSize) < |all|;
    FirstPagesPrefix(all, n, pageSize);
    StartMonotone(p, n, pageSize);
  }

  // ---------------------------------------------------------------------
  // Lookup
  // ---------------------------------------------------------------------

  const AnimalNotFound := "Zwierzę nie znalezione"

  /** `findOne`: the animal, or the not-found error. */
  function FindOne(store: AnimalStore, key: AnimalKey): (r: Result<Animal, string>)
    ensures r.Ok? <==> key in store
    ensures r.Ok? ==> r.value == store[key]
    ensures r.Err? ==> r.error == AnimalNotFound
  {
    if key in store then Ok(store[key]) else Err(AnimalNotFound)
  }

  // ---------------------------------------------------------------------
  // Bulk upsert
  // ---------------------------------------------------------------------

  /** One record handed to `syncFromIrz`; the optional fields may be
      absent. */
  datatype IrzAnimalData = IrzAnimalData(
    irzId: string,
    earTagNumber: string,
    species: string,
    breed: Option<string>,
    gender: Gender,
    birthDate: Option<string>,
    motherEarTag: Option<string>)

  /** One upsert of the transaction, at time `now`; `initial` is the
      status the schema gives a new row. An absent breed is not written on
      update and is stored as null on creation. */
  function UpsertOne(store: AnimalStore, farmId: string, a: IrzAnimalData, species: Species, initial: AnimalStatus, now: int): (r: AnimalStore)
    ensures var k := AnimalKey(farmId, a.earTagNumber);
            && k in r && r[k].irzId == Some(a.irzId) && r[k].syncedAt == Some(now)
            && (k in store ==> r[k] == store[k].(irzId := Some(a.irzId), syncedAt := Some(now),
                                                 breed := if a.breed.Some? then a.breed else store[k].breed))
            && (k !in store ==> r[k] == Animal(Some(a.irzId), species, a.breed, a.gender, OrNull(a.birthDate), a.motherEarTag, initial, Some(now)))
            && UnchangedOutside(store, r, {k})
  {
    var k := AnimalKey(farmId, a.earTagNumber);
    if k in store then
      var old_ := store[k];
      store[k := old_.(irzId := Some(a.irzId), breed := if a.breed.Some? then a.breed else old_.breed, syncedAt := Some(now))]
    else
      store[k := Animal(Some(a.irzId), species, a.breed, a.gender, OrNull(a.birthDate), a.motherEarTag, initial, Some(now))]
  }

  predicate ValidSpecies(data: seq<IrzAnimalData>) {
    forall i :: 0 <= i < |data| ==> ParseSpecies(data[i].species).Some?
  }

  function UpsertAll(store: AnimalStore, farmId: string, data: seq<IrzAnimalData>, initial: AnimalStatus, now: int): AnimalStore
    requires ValidSpecies(data)
    decreases |data|
  {
    if data == [] then store
    else
      var s1 := UpsertOne(store, farmId, data[0], ParseSpecies(data[0].species).value, initial, now);
      UpsertAll(s1, farmId, data[1..], initial, now)
  }

  function KeysOf(farmId: string, data: seq<IrzAnimalData>): set<AnimalKey> {
    set i | 0 <= i < |data| :: AnimalKey(farmId, data[i].earTagNumber)
  }

  const InvalidSpeciesMessage := "Invalid enum value"
  const InvalidDateMessage := "Invalid date value"

  /** A record the database rejects: its species is not a value of the
      enumeration, or its birth date is text that `new Date` cannot parse
      (`parsesDate` stands for the date parser). */
  predicate Rejected(d: IrzAnimalData, parsesDate: string -> bool) {
    ParseSpecies(d.species).None? || (Truthy(d.birthDate) && !parsesDate(d.birthDate.value))
  }

  /** The position of the first rejected record. */
  function FirstRejected(data: seq<IrzAnimalData>, parsesDate: string -> bool): (r: Option<nat>)
    ensures r.Some? ==> r.value < |data| && Rejected(data[r.value], parsesDate)
    ensures r.Some? ==> forall j :: 0 <= j < r.value ==> !Rejected(data[j], parsesDate)
    ensures r.None? ==> forall j :: 0 <= j < |data| ==> !Rejected(data[j], parsesDate)
  {
    if data == [] then None
    else if Rejected(data[0], parsesDate) then Some(0)
    else
      match FirstRejected(data[1..], parsesDate)
      case None => None
      case Some(i) => Some(i + 1)
  }

  /** `syncFromIrz`: all upserts in one transaction. A record the database
      rejects fails the whole transaction, with the error of the first such
      record, and leaves the table as it was. */
  function SyncFromIrz(store: AnimalStore, farmId: string, data: seq<IrzAnimalData>, initial: AnimalStatus, now: int,
                       parsesDate: string -> bool): (r: Result<AnimalStore, string>)
    ensures r.Ok? <==> forall i :: 0 <= i < |data| ==> !Rejected(data[i], parsesDate)
    ensures r.Ok? ==> ValidSpecies(data) && r.value == UpsertAll(store, farmId, data, initial, now)
    ensures r.Err? ==>
      var i := FirstRejected(data, parsesDate).value;
      r.error == if ParseSpecies(data[i].species).None? then InvalidSpeciesMessage else InvalidDateMessage
  {
    match FirstRejected(data, parsesDate)
    case Some(i) =>
      Err(if ParseSpecies(data[i].species).None? then InvalidSpeciesMessage else InvalidDateMessage)
    case None =>
      assert ValidSpecies(data) by {
        forall i | 0 <= i < |data| ensures ParseSpecies(data[i].species).Some? {
          assert !Rejected(data[i], parsesDate);
        }
      }
      Ok(UpsertAll(store, farmId, data, initial, now))
  }

  /** A successful transaction writes exactly the keys of its records and
      stamps each with the sync time; every key it writes holds a registry
      id. */
  lemma {:induction false} SyncFromIrzFrame(store: AnimalStore, farmId: string, data: seq<IrzAnimalData>, initial: AnimalStatus, now: int)
    requires ValidSpecies(data)
    ensures var r := UpsertAll(store, farmId, data, initial, now);
            && UnchangedOutside(store, r, KeysOf(farmId, data))
            && forall k :: k in KeysOf(farmId, data) ==> k in r && r[k].syncedAt == Some(now) && r[k].irzId.Some?
    decreases |data|
  {
    if data != [] {
      var s1 := UpsertOne(store, farmId, data[0], ParseSpecies(data[0].species).value, initial, now);
      SyncFromIrzFrame(s1, farmId, data[1..], initial, now);
      assert KeysOf(farmId, data) == KeysOf(farmId, data[1..]) + {AnimalKey(farmId, data[0].earTagNumber)} by {
        forall k | k in KeysOf(farmId, data)
          ensures k in KeysOf(farmId, data[1..]) || k == AnimalKey(farmId, data[0].earTagNumber)
        {
          var i :| 0 <= i < |data| && k == AnimalKey(farmId, data[i].earTagNumber);
          if i > 0 { assert data[1..][i - 1] == data[i]; }
        }
        forall k | k in KeysOf(farmId, data[1..]) ensures k in KeysOf(farmId, data) {
          var i :| 0 <= i < |data[1..]| && k == AnimalKey(farmId, data[1..][i].earTagNumber);
          assert data[i + 1] == data[1..][i];
        }
      }
    }
  }

  /** A row that exists keeps everything but its registry id, breed and
      sync time; a record without a breed leaves the stored breed alone. */
  lemma {:induction false} SyncFromIrzKeepsExisting(store: AnimalStore, farmId: string, data: seq<IrzAnimalData>, initial: AnimalStatus, now: int)
    requires ValidSpecies(data)
    ensures var r := UpsertAll(store, farmId, data, initial, now);
            forall k :: k in store ==> (k in r
              && r[k].species == store[k].species && r[k].gender == store[k].gender
              && r[k].birthDate == store[k].birthDate && r[k].motherEarTag == store[k].motherEarTag
              && r[k].status == store[k].status
              && ((forall i :: 0 <= i < |data| && AnimalKey(farmId, data[i].earTagNumber) == k ==> data[i].breed.None?)
                  ==> r[k].breed == store[k].breed))
    decreases |data|
  {
    if data != [] {
      var s1 := UpsertOne(store, farmId, data[0], ParseSpecies(data[0].species).value, initial, now);
      SyncFromIrzKeepsExisting(s1, farmId, data[1..], initial, now);
      forall k | k in store
        ensures (forall i :: 0 <= i < |data| && AnimalKey(farmId, data[i].earTagNumber) == k ==> data[i].breed.None?)
                ==> (forall i :: 0 <= i < |data[1..]| && AnimalKey(farmId, data[1..][i].earTagNumber) == k ==> data[1..][i].breed.None?)
      {
        if forall i :: 0 <= i < |data| && AnimalKey(farmId, data[i].earTagNumber) == k ==> data[i].breed.None? {
          forall i | 0 <= i < |data[1..]| && AnimalKey(farmId, data[1..][i].earTagNumber) == k
            ensures data[1..][i].breed.None?
          {
            assert data[1..][i] == data[i + 1];
          }
        }
      }
    }
  }
}
