/**
 * The backend animal store (`AnimalsService`). The database table is a map
 * from id to record held by the service. Reading is open to every
 * authenticated caller; writing is reserved to the record's owner: update and
 * remove first load the record (NotFound), then compare its `ownerId` with
 * the caller (Forbidden), and only then change the table.
 */
module AnimalsService {
  import opened Wrappers
  import opened Strings
  import opened SharedSchemas

  datatype Animal = Animal(
    id: string,
    name: string,
    age: int,
    animalType: AnimalType,
    breed: string,
    ownerName: Option<string>,
    ownerContact: Option<string>,
    ownerId: string)

  /**
   * The create payload. `ownerId` stands for an owner id the request body
   * may carry; the service overrides it with the caller's id.
   */
  datatype CreateAnimalDto = CreateAnimalDto(
    name: string,
    age: int,
    animalType: AnimalType,
    breed: string,
    ownerName: Option<string>,
    ownerContact: Option<string>,
    ownerId: Option<string>)

  /** The update payload: the fields a request supplies; `None` leaves a column as it is. */
  datatype UpdateAnimalDto = UpdateAnimalDto(
    name: Option<string>,
    age: Option<int>,
    animalType: Option<AnimalType>,
    breed: Option<string>,
    ownerName: Option<string>,
    ownerContact: Option<string>)

  datatype ServiceError = NotFound(id: string) | Forbidden

  /** `avgAge` is kept in tenths: 2.5 years is 25. */
  datatype Stats = Stats(total: nat, dogs: nat, cats: nat, avgAgeTenths: int)

  /** The record `create` writes: the payload spread first, then `ownerId: userId`. */
  function NewRecord(dto: CreateAnimalDto, userId: string, id: string): Animal
  {
    Animal(id, dto.name, dto.age, dto.animalType, dto.breed, dto.ownerName, dto.ownerContact, userId)
  }

  function Pick<T>(supplied: Option<T>, current: T): T
  {
    if supplied.Some? then supplied.value else current
  }

  /** The record `update` writes: each supplied field replaces the column, the rest is kept. */
  function Patched(a: Animal, dto: UpdateAnimalDto): Animal
  {
    a.(name := Pick(dto.name, a.name),
       age := Pick(dto.age, a.age),
       animalType := Pick(dto.animalType, a.animalType),
       breed := Pick(dto.breed, a.breed),
       ownerName := if dto.ownerName.Some? then dto.ownerName else a.ownerName,
       ownerContact := if dto.ownerContact.Some? then dto.ownerContact else a.ownerContact)
  }

  /** `if (query)`: a missing or empty query does not filter. */
  predicate SearchActive(query: Option<string>)
  {
    query.Some? && query.value != ""
  }

  /** Prisma's `contains` with `mode: 'insensitive'` on name or owner name. */
  predicate MatchesQuery(a: Animal, q: string)
  {
    ContainsIgnoringCase(a.name, q) || (a.ownerName.Some? && ContainsIgnoringCase(a.ownerName.value, q))
  }

  /** Who may write a record: the lookup fails first, the ownership check second. */
  function WriteAccess(m: map<string, Animal>, id: string, userId: string): (r: Result<Animal, ServiceError>)
    ensures r.Success? <==> id in m && m[id].ownerId == userId
    ensures r == Failure(NotFound(id)) <==> id !in m
    ensures r.Success? ==> r.value == m[id]
  {
    if id !in m then Failure(NotFound(id))
    else if m[id].ownerId != userId then Failure(Forbidden)
    else Success(m[id])
  }

  // ----- statistics -----

  datatype TypeGroup = TypeGroup(animalType: AnimalType, count: nat)
  datatype TypeTotals = TypeTotals(dog: nat, cat: nat)

  function CountType(m: map<string, Animal>, t: AnimalType): nat
  {
    |set k | k in m && m[k].animalType == t|
  }

  /** The `groupBy(['type'])` result: one entry per type that occurs. */
  function ByType(m: map<string, Animal>): seq<TypeGroup>
  {
    (if CountType(m, Dog) > 0 then [TypeGroup(Dog, CountType(m, Dog))] else [])
    + (if CountType(m, Cat) > 0 then [TypeGroup(Cat, CountType(m, Cat))] else [])
  }

  /** `byType.reduce((acc, curr) => { acc[curr.type] = curr._count.type; return acc }, acc)`. */
  function Tally(groups: seq<TypeGroup>, acc: TypeTotals): TypeTotals
    decreases |groups|
  {
    if groups == [] then acc
    else
      var g := groups[0];
      Tally(groups[1..], if g.animalType == Dog then acc.(dog := g.count) else acc.(cat := g.count))
  }

  /** The count of the last group of type `t`, or `d` when none has that type. */
  function LastCount(groups: seq<TypeGroup>, t: AnimalType, d: nat): nat
    decreases |groups|
  {
    if groups == [] then d
    else if groups[|groups| - 1].animalType == t then groups[|groups| - 1].count
    else LastCount(groups[..|groups| - 1], t, d)
  }

  /** The reduce keeps, per type, the last count it sees and the initial value for a type it never sees. */
  lemma {:induction false} TallyLastWins(groups: seq<TypeGroup>, acc: TypeTotals)
    ensures Tally(groups, acc).dog == LastCount(groups, Dog, acc.dog)
    ensures Tally(groups, acc).cat == LastCount(groups, Cat, acc.cat)
    decreases |groups|
  {
    if groups != [] {
      var g := groups[0];
      var acc' := if g.animalType == Dog then acc.(dog := g.count) else acc.(cat := g.count);
      TallyLastWins(groups[1..], acc');
      LastCountCons(g, groups[1..], Dog, acc.dog);
      LastCountCons(g, groups[1..], Cat, acc.cat);
      assert [g] + groups[1..] == groups;
    }
  }

  lemma {:induction false} LastCountCons(g: TypeGroup, rest: seq<TypeGroup>, t: AnimalType, d: nat)
    ensures LastCount([g] + rest, t, d) == LastCount(rest, t, if g.animalType == t then g.count else d)
    decreases |rest|
  {
    if rest != [] {
      var s := [g] + rest;
      assert s[..|s| - 1] == [g] + rest[..|rest| - 1];
      LastCountCons(g, rest[..|rest| - 1], t, d);
    }
  }

  /** Ages summed over the keys `ks`, in no particular order. */
  ghost function SumAges(m: map<string, Animal>, ks: set<string>): int
    requires ks <= m.Keys
    decreases |ks|
  {
    if ks == {} then 0
    else
      var k :| k in ks;
      m[k].age + SumAges(m, ks - {k})
  }

  /** The sum does not depend on which key is taken first. */
  lemma {:induction false} SumAgesRemove(m: map<string, Animal>, ks: set<string>, k: string)
    requires ks <= m.Keys && k in ks
    ensures SumAges(m, ks) == m[k].age + SumAges(m, ks - {k})
    decreases |ks|
  {
    var j :| j in ks && SumAges(m, ks) == m[j].age + SumAges(m, ks - {j});
    if j != k {
      SumAgesRemove(m, ks - {j}, k);
      SumAgesRemove(m, ks - {k}, j);
      assert ks - {j} - {k} == ks - {k} - {j};
    }
  }

  /** `Math.round(10 * sum / n)` for a positive count, as an integer. */
  function RoundedTenths(sum: int, n: nat): int
    requires n > 0
  {
    (20 * sum + n) / (2 * n)
  }

  /** The rounding is half-up to the nearest tenth: `r - 1/2 <= 10 * sum / n < r + 1/2`. */
  lemma RoundedTenthsHalfUp(sum: int, n: nat)
    requires n > 0
    ensures var r := RoundedTenths(sum, n); 2 * n * r - n <= 20 * sum < 2 * n * r + n
  {
    var q := (20 * sum + n) / (2 * n);
    var rem := (20 * sum + n) % (2 * n);
    assert 20 * sum + n == 2 * n * q + rem && 0 <= rem < 2 * n;
  }

  ghost function StatsOf(m: map<string, Animal>): Stats
  {
    var byType := Tally(ByType(m), TypeTotals(0, 0));
    Stats(|m|, byType.dog, byType.cat, if |m| == 0 then 0 else RoundedTenths(SumAges(m, m.Keys), |m|))
  }

  lemma StatsCounts(m: map<string, Animal>)
    ensures StatsOf(m).dogs == CountType(m, Dog) && StatsOf(m).cats == CountType(m, Cat)
    ensures StatsOf(m).total == StatsOf(m).dogs + StatsOf(m).cats
  {
    var g := ByType(m);
    TallyLastWins(g, TypeTotals(0, 0));
    var dogs := set k | k in m && m[k].animalType == Dog;
    var cats := set k | k in m && m[k].animalType == Cat;
    assert dogs + cats == m.Keys;
    assert dogs * cats == {};
    if CountType(m, Cat) > 0 {
      assert g[|g| - 1] == TypeGroup(Cat, CountType(m, Cat));
      if CountType(m, Dog) > 0 {
        assert g[..|g| - 1] == [TypeGroup(Dog, CountType(m, Dog))];
      } else {
        assert g[..|g| - 1] == [];
      }
    }
  }

  lemma StatsAverage(m: map<string, Animal>)
    ensures StatsOf(m).total == |m|
    ensures |m| == 0 ==> StatsOf(m).avgAgeTenths == 0
    ensures |m| > 0 ==>
      var r := StatsOf(m).avgAgeTenths;
      2 * |m| * r - |m| <= 20 * SumAges(m, m.Keys) < 2 * |m| * r + |m|
  {
    if |m| > 0 {
      RoundedTenthsHalfUp(SumAges(m, m.Keys), |m|);
    }
  }

  class AnimalStore {
    var animals: map<string, Animal>

    /** Every record is stored under its own id. */
    ghost predicate Valid()
      reads this
    {
      forall id :: id in animals ==> animals[id].id == id
    }

    constructor (initial: map<string, Animal>)
      requires forall id :: id in initial ==> initial[id].id == id
      ensures Valid() && animals == initial
    {
      animals := initial;
    }

    /** `create`: `freshId` is the id the database generates. */
    method Create(dto: CreateAnimalDto, userId: string, freshId: string) returns (a: Animal)
      requires Valid() && freshId !in animals
      modifies this
      ensures Valid()
      ensures a == NewRecord(dto, userId, freshId) && a.ownerId == userId
      ensures animals == old(animals)[freshId := a]
    {
      a := NewRecord(dto, userId, freshId);
      animals := animals[freshId := a];
    }

    function FindAll(query: Option<string>): (r: set<Animal>)
      reads this
      ensures r <= animals.Values
      ensures !SearchActive(query) ==> r == animals.Values
      ensures SearchActive(query) ==> forall a :: a in animals.Values ==> (a in r <==> MatchesQuery(a, query.value))
    {
      if SearchActive(query) then set a | a in animals.Values && MatchesQuery(a, query.value)
      else animals.Values
    }

    function FindOne(id: string): (r: Result<Animal, ServiceError>)
      reads this
      ensures r.Success? <==> id in animals
      ensures r.Success? ==> r.value == animals[id]
      ensures r.Failure? ==> r.error == NotFound(id)
    {
      if id in animals then Success(animals[id]) else Failure(NotFound(id))
    }

    method Update(id: string, dto: UpdateAnimalDto, userId: string) returns (r: Result<Animal, ServiceError>)
      requires Valid()
      modifies this
      ensures Valid()
      ensures id !in old(animals) ==> r == Failure(NotFound(id)) && animals == old(animals)
      ensures id in old(animals) && old(animals)[id].ownerId != userId ==>
        r == Failure(Forbidden) && animals == old(animals)
      ensures WriteAccess(old(animals), id, userId).Success? ==>
        r == Success(Patched(old(animals)[id], dto)) && animals == old(animals)[id := r.value]
    {
      var found := FindOne(id);
      if found.Failure? {
        return Failure(found.error);
      }
      var animal := found.value;
      if animal.ownerId != userId {
        return Failure(Forbidden);
      }
      var updated := Patched(animal, dto);
      animals := animals[id := updated];
      return Success(updated);
    }

    method Remove(id: string, userId: string) returns (r: Result<Animal, ServiceError>)
      requires Valid()
      modifies this
      ensures Valid()
      ensures id !in old(animals) ==> r == Failure(NotFound(id)) && animals == old(animals)
      ensures id in old(animals) && old(animals)[id].ownerId != userId ==>
        r == Failure(Forbidden) && animals == old(animals)
      ensures WriteAccess(old(animals), id, userId).Success? ==>
        r == Success(old(animals)[id]) && animals == old(animals) - {id}
    {
      var found := FindOne(id);
      if found.Failure? {
        return Failure(found.error);
      }
      var animal := found.value;
      if animal.ownerId != userId {
        return Failure(Forbidden);
      }
      animals := animals - {id};
      return Success(animal);
    }

    /** `getStats`: the three reads, taken one after the other. */
    ghost function GetStats(): (s: Stats)
      reads this
      ensures s.dogs == CountType(animals, Dog) && s.cats == CountType(animals, Cat)
      ensures s.total == |animals| == s.dogs + s.cats
      ensures s.total == 0 ==> s.avgAgeTenths == 0
      ensures s.total > 0 ==>
        var sum := SumAges(animals, animals.Keys);
        2 * s.total * s.avgAgeTenths - s.total <= 20 * sum < 2 * s.total * s.avgAgeTenths + s.total
    {
      StatsCounts(animals);
      StatsAverage(animals);
      StatsOf(animals)
    }
  }

  /** `create` makes the caller the owner, whatever owner id the payload carries. */
  lemma CreateForcesOwner(dto: CreateAnimalDto, userId: string, id: string)
    ensures NewRecord(dto, userId, id).ownerId == userId
    ensures NewRecord(dto, userId, id) == NewRecord(dto.(ownerId := None), userId, id)
  {
  }

  /** An owner's update never moves a record to another id or owner, and keeps every unsupplied field. */
  lemma PatchedKeeps(a: Animal, dto: UpdateAnimalDto)
    ensures Patched(a, dto).id == a.id && Patched(a, dto).ownerId == a.ownerId
    ensures dto.name.None? ==> Patched(a, dto).name == a.name
    ensures dto.name.Some? ==> Patched(a, dto).name == dto.name.value
    ensures dto.age.None? ==> Patched(a, dto).age == a.age
    ensures dto.age.Some? ==> Patched(a, dto).age == dto.age.value
    ensures Patched(a, dto) == a <==>
      (dto.name.None? || dto.name.value == a.name)
      && (dto.age.None? || dto.age.value == a.age)
      && (dto.animalType.None? || dto.animalType.value == a.animalType)
      && (dto.breed.None? || dto.breed.value == a.breed)
      && (dto.ownerName.None? || dto.ownerName == a.ownerName)
      && (dto.ownerContact.None? || dto.ownerContact == a.ownerContact)
  {
  }

  /** Patching with nothing supplied is the identity; patching twice with the same payload is patching once. */
  lemma PatchedIdempotent(a: Animal, dto: UpdateAnimalDto)
    ensures Patched(a, UpdateAnimalDto(None, None, None, None, None, None)) == a
    ensures Patched(Patched(a, dto), dto) == Patched(a, dto)
  {
  }

  /** A longer query that contains a shorter one finds no record the shorter one misses. */
  lemma SearchNarrows(s: AnimalStore, q: string, longer: string)
    requires q != "" && ContainsIgnoringCase(longer, q)
    ensures s.FindAll(Some(longer)) <= s.FindAll(Some(q))
  {
    forall a | a in s.FindAll(Some(longer))
      ensures a in s.FindAll(Some(q))
    {
      if ContainsIgnoringCase(a.name, longer) {
        ContainsIgnoringCaseNarrows(a.name, q, longer);
      } else {
        ContainsIgnoringCaseNarrows(a.ownerName.value, q, longer);
      }
    }
  }

  /** Searching for a record's own name, in any ASCII case, finds it. */
  lemma SearchFindsOwnName(s: AnimalStore, a: Animal)
    requires a in s.animals.Values && a.name != ""
    ensures a in s.FindAll(Some(a.name))
  {
    ContainsIgnoringCaseSelf(a.name);
  }

  /** Writes by a caller other than the owner, or to an absent id, are refused, and only the owner's succeed. */
  lemma WriteAccessExclusive(m: map<string, Animal>, id: string, owner: string, other: string)
    requires id in m && m[id].ownerId == owner && other != owner
    ensures WriteAccess(m, id, owner).Success?
    ensures WriteAccess(m, id, other) == Failure(Forbidden)
  {
  }

  /** Inserting a record adds one to the total and to its type, and its age to the sum. */
  lemma StatsAfterCreate(m: map<string, Animal>, a: Animal)
    requires a.id !in m
    ensures CountType(m[a.id := a], a.animalType) == CountType(m, a.animalType) + 1
    ensures SumAges(m[a.id := a], m.Keys + {a.id}) == a.age + SumAges(m, m.Keys)
  {
    var m' := m[a.id := a];
    var before := set k | k in m && m[k].animalType == a.animalType;
    var after := set k | k in m' && m'[k].animalType == a.animalType;
    assert after == before + {a.id};
    SumAgesRemove(m', m.Keys + {a.id}, a.id);
    assert m.Keys + {a.id} - {a.id} == m.Keys;
    SumAgesFrame(m, m', m.Keys);
  }

  /** The sum over `ks` reads only the records under `ks`. */
  lemma {:induction false} SumAgesFrame(m: map<string, Animal>, m': map<string, Animal>, ks: set<string>)
    requires ks <= m.Keys && ks <= m'.Keys
    requires forall k :: k in ks ==> m[k] == m'[k]
    ensures SumAges(m, ks) == SumAges(m', ks)
    decreases |ks|
  {
    if ks != {} {
      var k :| k in ks;
      SumAgesRemove(m, ks, k);
      SumAgesRemove(m', ks, k);
      SumAgesFrame(m, m', ks - {k});
    }
  }
}
