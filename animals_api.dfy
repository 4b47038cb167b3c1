/**
 * The fallback branches of `animalsApi` (`apps/frontend/src/lib/api/animals-api.ts`),
 * taken when the request fails: a module-level list of records that the
 * operations read and replace. New records are prepended.
 */
module AnimalsApi {
  import opened Wrappers
  import opened Strings
  import opened FrontendTypes

  const NotFoundMessage := "Animal not found"

  function Record(id: string, name: string, age: real, t: AnimalType, breed: string, ownerName: string,
                  contact: string, stamp: string, userId: string, owned: bool): Animal
  {
    Animal(id, name, age, t, breed, ownerName, contact, None, stamp, stamp, None, Some(userId), Some(owned))
  }

  function InitialAnimals(): seq<Animal>
  {
    [ Record("1", "Rex", 3.0, Dog, "Golden Retriever", "Maria Silva", "(11) 99999-1111", "2024-01-15T10:30:00Z", "1", true),
      Record("2", "Mimi", 2.0, Cat, "Persa", "Joao Santos", "(11) 99999-2222", "2024-01-20T14:15:00Z", "2", false),
      Record("3", "Thor", 5.0, Dog, "Labrador", "Maria Silva", "(11) 99999-1111", "2024-02-01T09:00:00Z", "1", true),
      Record("4", "Luna", 1.0, Cat, "Siames", "Ana Costa", "(11) 99999-3333", "2024-02-10T16:45:00Z", "3", false),
      Record("5", "Bob", 4.0, Dog, "Bulldog Frances", "Pedro Lima", "(11) 99999-4444", "2024-02-15T11:20:00Z", "4", false),
      Record("6", "Bella", 2.0, Dog, "Poodle", "Carla Mendes", "(11) 99999-5555", "2024-03-01T08:00:00Z", "1", true) ]
  }

  /** The record the fallback `create` builds: `now` is `Date.now()` and `stamp` the ISO time. */
  function NewRecord(data: AnimalFormData, now: nat, stamp: string): Animal
  {
    Animal(NatToString(now), data.name, data.age, data.animalType, data.breed, data.ownerName, data.ownerContact,
           data.imageUrl, stamp, stamp, None, Some("1"), Some(true))
  }

  class FallbackAnimals {
    var mockAnimals: seq<Animal>

    constructor ()
      ensures mockAnimals == InitialAnimals()
    {
      mockAnimals := InitialAnimals();
    }

    /** `getAll`: the list itself, every record in its stored order. */
    function GetAll(): (r: seq<Animal>)
      reads this
      ensures r == mockAnimals
    {
      mockAnimals
    }

    /** `getMyAnimals`: the records flagged `isOwner`, in list order. */
    function GetMyAnimals(): (r: seq<Animal>)
      reads this
      ensures forall i :: 0 <= i < |r| ==> r[i].isOwner == Some(true) && r[i] in mockAnimals
      ensures forall a :: a in mockAnimals && a.isOwner == Some(true) ==> a in r
      ensures r == Filter(mockAnimals, Owned)
    {
      Filter(mockAnimals, Owned)
    }

    /** `getById`: the first record with the id, or null. */
    function GetById(id: string): (r: Option<Animal>)
      reads this
      ensures r.None? <==> Absent(mockAnimals, id)
      ensures r.Some? ==> r.value.id == id && r.value in mockAnimals
      ensures r.Some? ==> exists k :: 0 <= k < |mockAnimals| && mockAnimals[k] == r.value && Absent(mockAnimals[..k], id)
    {
      Find(mockAnimals, id)
    }

    method Create(data: AnimalFormData, now: nat, stamp: string) returns (a: Animal)
      modifies this
      ensures a == NewRecord(data, now, stamp)
      ensures mockAnimals == [a] + old(mockAnimals)
    {
      a := NewRecord(data, now, stamp);
      mockAnimals := [a] + mockAnimals;
    }

    method Update(id: string, patch: FormPatch, stamp: string) returns (r: Result<Animal, string>)
      modifies this
      ensures Absent(old(mockAnimals), id) ==> r == Failure(NotFoundMessage) && mockAnimals == old(mockAnimals)
      ensures !Absent(old(mockAnimals), id) ==>
        var i := FirstIndex(old(mockAnimals), id);
        r == Success(Merge(old(mockAnimals)[i], FormAsPatch(patch), stamp))
        && mockAnimals == old(mockAnimals)[i := r.value]
    {
      var index := FirstIndex(mockAnimals, id);
      if index != -1 {
        var updated := Merge(mockAnimals[index], FormAsPatch(patch), stamp);
        mockAnimals := mockAnimals[index := updated];
        return Success(updated);
      }
      return Failure(NotFoundMessage);
    }

    method Delete(id: string)
      modifies this
      ensures mockAnimals == Filter(old(mockAnimals), IdIsNot(id))
    {
      mockAnimals := Filter(mockAnimals, IdIsNot(id));
    }
  }

  /** Created records go in front; the old records follow in their order; the creator is user "1". */
  lemma CreatePrepends(before: seq<Animal>, data: AnimalFormData, now: nat, stamp: string)
    ensures var a := NewRecord(data, now, stamp);
      var after := [a] + before;
      |after| == |before| + 1 && after[0] == a && after[1..] == before
      && a.userId == Some("1") && a.isOwner == Some(true) && a.ownerId.None?
      && Filter(after, Owned) == [a] + Filter(before, Owned)
  {
    FilterCons(NewRecord(data, now, stamp), before, Owned);
  }

  /** A fallback update changes only the first record with the id, and only in the supplied form fields. */
  lemma UpdateTouchesOneIndex(before: seq<Animal>, id: string, patch: FormPatch, stamp: string)
    requires !Absent(before, id)
    ensures var i := FirstIndex(before, id);
      var m := Merge(before[i], FormAsPatch(patch), stamp);
      var after := before[i := m];
      |after| == |before|
      && (forall k :: 0 <= k < |before| && k != i ==> after[k] == before[k])
      && m.id == id && m.userId == before[i].userId && m.isOwner == before[i].isOwner
  {
    FormPatchKeepsIdentity(before[FirstIndex(before, id)], patch, stamp);
  }

  /** Deleting removes every record with the id and keeps the rest in order; an absent id changes nothing. */
  lemma DeleteKeepsOrder(a: seq<Animal>, b: seq<Animal>, id: string)
    ensures Filter(a + b, IdIsNot(id)) == Filter(a, IdIsNot(id)) + Filter(b, IdIsNot(id))
    ensures Absent(Filter(a, IdIsNot(id)), id)
    ensures Absent(a, id) ==> Filter(a, IdIsNot(id)) == a
  {
    FilterConcat(a, b, IdIsNot(id));
    if Absent(a, id) {
      RemoveAbsent(a, id);
    }
  }

  /** The initial list holds six records with the distinct ids "1" to "6", three of them owned. */
  lemma InitialAnimalsFacts()
    ensures |InitialAnimals()| == 6
    ensures forall i :: 0 <= i < 6 ==> InitialAnimals()[i].id == NatToString(i + 1)
    ensures forall i, j :: 0 <= i < j < 6 ==> InitialAnimals()[i].id != InitialAnimals()[j].id
    ensures |Filter(InitialAnimals(), Owned)| == 3
  {
    var s := InitialAnimals();
    assert s[1..][1..][1..][1..][1..][1..] == [];
    forall i | 0 <= i < 6
      ensures s[i].id == NatToString(i + 1)
    {
      assert NatToString(i + 1) == [DigitChar(i + 1)];
    }
  }
}
