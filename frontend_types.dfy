/**
 * The frontend's records (`apps/frontend/src/lib/types.ts`) and the list
 * operations both in-memory animal stores use: the first index of an id
 * (`findIndex`), the first record with an id (`find`), order-preserving
 * filters (`filter`) and the object spread that merges a patch into a record.
 */
module FrontendTypes {
  import opened Wrappers

  datatype AnimalType = Dog | Cat

  /**
   * An animal as the frontend holds it. The two stores fill different owner
   * fields: the mock-data store sets `ownerId`, the fallback list `userId`.
   */
  datatype Animal = Animal(
    id: string,
    name: string,
    age: real,
    animalType: AnimalType,
    breed: string,
    ownerName: string,
    ownerContact: string,
    imageUrl: Option<string>,
    createdAt: string,
    updatedAt: string,
    ownerId: Option<string>,
    userId: Option<string>,
    isOwner: Option<bool>)

  datatype User = User(
    id: string,
    name: string,
    email: string,
    phone: Option<string>,
    avatarUrl: Option<string>,
    createdAt: string)

  datatype AuthResponse = AuthResponse(user: User, token: string)

  /** `AnimalFormData`, also the payload of `createMockAnimal`. */
  datatype AnimalFormData = AnimalFormData(
    name: string,
    age: real,
    animalType: AnimalType,
    breed: string,
    ownerName: string,
    ownerContact: string,
    imageUrl: Option<string>)

  /** `Partial<Animal>`: `Some` marks a supplied field. */
  datatype AnimalPatch = AnimalPatch(
    id: Option<string>,
    name: Option<string>,
    age: Option<real>,
    animalType: Option<AnimalType>,
    breed: Option<string>,
    ownerName: Option<string>,
    ownerContact: Option<string>,
    imageUrl: Option<string>,
    createdAt: Option<string>,
    ownerId: Option<string>,
    userId: Option<string>,
    isOwner: Option<bool>)

  /** `Partial<AnimalFormData>`. */
  datatype FormPatch = FormPatch(
    name: Option<string>,
    age: Option<real>,
    animalType: Option<AnimalType>,
    breed: Option<string>,
    ownerName: Option<string>,
    ownerContact: Option<string>,
    imageUrl: Option<string>)

  /** A form patch is an animal patch that supplies none of the other fields. */
  function FormAsPatch(p: FormPatch): AnimalPatch
  {
    AnimalPatch(None, p.name, p.age, p.animalType, p.breed, p.ownerName, p.ownerContact, p.imageUrl,
                None, None, None, None)
  }

  function Pick<T>(supplied: Option<T>, current: T): T
  {
    if supplied.Some? then supplied.value else current
  }

  function PickOpt<T>(supplied: Option<T>, current: Option<T>): Option<T>
  {
    if supplied.Some? then supplied else current
  }

  /** `{ ...a, ...p, updatedAt: stamp }`. */
  function Merge(a: Animal, p: AnimalPatch, stamp: string): Animal
  {
    Animal(Pick(p.id, a.id), Pick(p.name, a.name), Pick(p.age, a.age), Pick(p.animalType, a.animalType),
           Pick(p.breed, a.breed), Pick(p.ownerName, a.ownerName), Pick(p.ownerContact, a.ownerContact),
           PickOpt(p.imageUrl, a.imageUrl), Pick(p.createdAt, a.createdAt), stamp,
           PickOpt(p.ownerId, a.ownerId), PickOpt(p.userId, a.userId), PickOpt(p.isOwner, a.isOwner))
  }

  /** A merged record takes every supplied field from the patch and keeps every other one. */
  lemma MergeFields(a: Animal, p: AnimalPatch, stamp: string)
    ensures var m := Merge(a, p, stamp);
      m.updatedAt == stamp
      && (p.name.Some? ==> m.name == p.name.value) && (p.name.None? ==> m.name == a.name)
      && (p.age.Some? ==> m.age == p.age.value) && (p.age.None? ==> m.age == a.age)
      && (p.id.None? ==> m.id == a.id)
      && (p.ownerId.None? ==> m.ownerId == a.ownerId)
      && m.createdAt == (if p.createdAt.Some? then p.createdAt.value else a.createdAt)
    ensures Merge(a, AnimalPatch(None, None, None, None, None, None, None, None, None, None, None, None), stamp)
      == a.(updatedAt := stamp)
  {
  }

  /** A form patch never changes a record's id or owner fields. */
  lemma FormPatchKeepsIdentity(a: Animal, p: FormPatch, stamp: string)
    ensures var m := Merge(a, FormAsPatch(p), stamp);
      m.id == a.id && m.ownerId == a.ownerId && m.userId == a.userId && m.isOwner == a.isOwner
      && m.createdAt == a.createdAt
  {
  }

  /** No record in `s` has id `id`. */
  predicate Absent(s: seq<Animal>, id: string)
  {
    forall k :: 0 <= k < |s| ==> s[k].id != id
  }

  /** `s.findIndex(a => a.id === id)`. */
  function FirstIndex(s: seq<Animal>, id: string): (i: int)
    ensures -1 <= i < |s|
    ensures i == -1 <==> Absent(s, id)
    ensures i >= 0 ==> s[i].id == id && Absent(s[..i], id)
  {
    if s == [] then -1
    else if s[0].id == id then 0
    else
      var j := FirstIndex(s[1..], id);
      assert j >= 0 ==> s[..j + 1] == [s[0]] + s[1..][..j];
      if j == -1 then -1 else j + 1
  }

  /** `s.find(a => a.id === id) || null`. */
  function Find(s: seq<Animal>, id: string): (r: Option<Animal>)
    ensures r.None? <==> Absent(s, id)
    ensures r.Some? ==> r.value.id == id && r.value in s
    ensures r.Some? ==> exists k :: 0 <= k < |s| && s[k] == r.value && Absent(s[..k], id)
  {
    var i := FirstIndex(s, id);
    if i == -1 then None else Some(s[i])
  }

  /** What a `filter` call keeps. */
  datatype Keep = IdIsNot(id: string) | Owned

  predicate Keeps(k: Keep, a: Animal)
  {
    match k
    case IdIsNot(id) => a.id != id
    case Owned => a.isOwner == Some(true)
  }

  /** `s.filter(...)`. */
  function Filter(s: seq<Animal>, k: Keep): (r: seq<Animal>)
    ensures |r| <= |s|
    ensures forall i :: 0 <= i < |r| ==> Keeps(k, r[i]) && r[i] in s
    ensures forall a :: a in s && Keeps(k, a) ==> a in r
  {
    if s == [] then []
    else (if Keeps(k, s[0]) then [s[0]] else []) + Filter(s[1..], k)
  }

  /** Filtering a concatenation filters each part in place: the kept records keep their order. */
  lemma {:induction false} FilterConcat(a: seq<Animal>, b: seq<Animal>, k: Keep)
    ensures Filter(a + b, k) == Filter(a, k) + Filter(b, k)
  {
    if a == [] {
      assert a + b == b;
    } else {
      assert (a + b)[1..] == a[1..] + b;
      FilterConcat(a[1..], b, k);
    }
  }

  /** A filter that keeps every record is the identity. */
  lemma {:induction false} FilterKeepsAll(s: seq<Animal>, k: Keep)
    requires forall i :: 0 <= i < |s| ==> Keeps(k, s[i])
    ensures Filter(s, k) == s
  {
    if s != [] {
      FilterKeepsAll(s[1..], k);
    }
  }

  /** Filtering twice is filtering once. */
  lemma {:induction false} FilterIdempotent(s: seq<Animal>, k: Keep)
    ensures Filter(Filter(s, k), k) == Filter(s, k)
  {
    FilterKeepsAll(Filter(s, k), k);
  }

  /** Removing an id that does not occur changes nothing. */
  lemma RemoveAbsent(s: seq<Animal>, id: string)
    requires Absent(s, id)
    ensures Filter(s, IdIsNot(id)) == s
  {
    FilterKeepsAll(s, IdIsNot(id));
  }

  /** Prepending a record and then filtering is filtering and then prepending it, if kept. */
  lemma FilterCons(a: Animal, s: seq<Animal>, k: Keep)
    ensures Filter([a] + s, k) == (if Keeps(k, a) then [a] else []) + Filter(s, k)
  {
    assert ([a] + s)[1..] == s;
  }
}
