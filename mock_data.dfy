/**
 * The developer-mode animal store (`apps/frontend/src/lib/mock-data.ts`):
 * an array kept in browser storage under `mock_animals`, read, changed and
 * written back by each operation. New records are appended.
 */
module MockData {
  import opened Wrappers
  import opened Strings
  import opened FrontendTypes
  import opened BrowserStorage

  const MockStorageKey := "mock_animals"
  const MockUserKey := "mock_user"
  const MockToken := "mock-jwt-token-dev-mode"
  const MockUserId := "mock-user-001"
  const NotFoundMessage := "Animal not found"
  const ParseFailure := "stored value is not an animal array"

  /** The developer user; `createdAt` is the time the module was loaded. */
  function MockUser(createdAt: string): User
  {
    User(MockUserId, "Desenvolvedor", "dev@petshop.com", Some("11 99999-9999"), None, createdAt)
  }

  function InitialAnimals(): seq<Animal>
  {
    [ Animal("mock-001", "Rex", 3.0, Dog, "Golden Retriever", "Desenvolvedor", "11 99999-9999", None,
             "2024-01-15T00:00:00.000Z", "2024-01-15T00:00:00.000Z", Some(MockUserId), None, Some(true)),
      Animal("mock-002", "Mimi", 2.0, Cat, "Siamês", "Desenvolvedor", "11 99999-9999", None,
             "2024-02-20T00:00:00.000Z", "2024-02-20T00:00:00.000Z", Some(MockUserId), None, Some(true)),
      Animal("mock-003", "Bob", 5.0, Dog, "Bulldog", "João Silva", "11 98888-8888", None,
             "2024-03-10T00:00:00.000Z", "2024-03-10T00:00:00.000Z", Some("other-user"), None, Some(false)) ]
  }

  /** `getMockAnimals`: nothing or an empty string reads as `[]`; a value that is not an animal array fails. */
  function GetMockAnimals(st: LocalStorage): (r: Result<seq<Animal>, string>)
    reads st
    ensures !Truthy(st.GetItem(MockStorageKey)) ==> r == Success([])
    ensures st.GetItem(MockStorageKey) == Some(AnimalsJson([])) ==> r == Success([])
    ensures r.Success? && r.value != [] ==> st.GetItem(MockStorageKey) == Some(AnimalsJson(r.value))
    ensures Truthy(st.GetItem(MockStorageKey)) ==>
      (r.Success? <==> st.GetItem(MockStorageKey).value.AnimalsJson?)
      && (r.Success? ==> r.value == st.GetItem(MockStorageKey).value.animals)
  {
    var data := st.GetItem(MockStorageKey);
    if !Truthy(data) then Success([])
    else if data.value.AnimalsJson? then Success(data.value.animals)
    else Failure(ParseFailure)
  }

  /** `getMockAnimal`: the first record with the id, or null. */
  function GetMockAnimal(st: LocalStorage, id: string): (r: Result<Option<Animal>, string>)
    reads st
    ensures r.Failure? <==> GetMockAnimals(st).Failure?
    ensures r.Success? ==> r.value == Find(GetMockAnimals(st).value, id)
  {
    var animals := GetMockAnimals(st);
    if animals.Failure? then Failure(animals.error) else Success(Find(animals.value, id))
  }

  /** The record `createMockAnimal` appends. */
  function NewMockAnimal(data: AnimalFormData, now: nat, stamp: string): Animal
  {
    Animal("mock-" + NatToString(now), data.name, data.age, data.animalType, data.breed, data.ownerName,
           data.ownerContact, data.imageUrl, stamp, stamp, Some(MockUserId), None, Some(true))
  }

  method InitMockData(st: LocalStorage, loadedAt: string)
    modifies st
    ensures st.items == old(st.items)[MockStorageKey := AnimalsJson(InitialAnimals())]
                                     [MockUserKey := UserJson(MockUser(loadedAt))]
    ensures GetMockAnimals(st) == Success(InitialAnimals())
  {
    st.SetItem(MockStorageKey, AnimalsJson(InitialAnimals()));
    st.SetItem(MockUserKey, UserJson(MockUser(loadedAt)));
  }

  method ClearMockData(st: LocalStorage)
    modifies st
    ensures st.items == old(st.items) - {MockStorageKey, MockUserKey}
    ensures GetMockAnimals(st) == Success([])
  {
    st.RemoveItem(MockStorageKey);
    st.RemoveItem(MockUserKey);
  }

  /** `createMockAnimal`: `now` is `Date.now()` and `stamp` the ISO time of the call. */
  method CreateMockAnimal(st: LocalStorage, data: AnimalFormData, now: nat, stamp: string)
    returns (r: Result<Animal, string>)
    modifies st
    ensures old(GetMockAnimals(st)).Failure? ==> r.Failure? && st.items == old(st.items)
    ensures old(GetMockAnimals(st)).Success? ==>
      r == Success(NewMockAnimal(data, now, stamp))
      && st.items == old(st.items)[MockStorageKey := AnimalsJson(old(GetMockAnimals(st)).value + [r.value])]
      && GetMockAnimals(st) == Success(old(GetMockAnimals(st)).value + [r.value])
  {
    var animals := GetMockAnimals(st);
    if animals.Failure? {
      return Failure(animals.error);
    }
    var created := NewMockAnimal(data, now, stamp);
    var list := animals.value + [created];
    st.SetItem(MockStorageKey, AnimalsJson(list));
    return Success(created);
  }

  /** `updateMockAnimal`: the first record with the id takes the patch and a new `updatedAt`. */
  method UpdateMockAnimal(st: LocalStorage, id: string, patch: AnimalPatch, stamp: string)
    returns (r: Result<Animal, string>)
    modifies st
    ensures old(GetMockAnimals(st)).Failure? ==> r.Failure? && st.items == old(st.items)
    ensures old(GetMockAnimals(st)).Success? && Absent(old(GetMockAnimals(st)).value, id) ==>
      r == Failure(NotFoundMessage) && st.items == old(st.items)
    ensures old(GetMockAnimals(st)).Success? && !Absent(old(GetMockAnimals(st)).value, id) ==>
      var before := old(GetMockAnimals(st)).value;
      var i := FirstIndex(before, id);
      r == Success(Merge(before[i], patch, stamp))
      && st.items == old(st.items)[MockStorageKey := AnimalsJson(before[i := r.value])]
  {
    var animals := GetMockAnimals(st);
    if animals.Failure? {
      return Failure(animals.error);
    }
    var list := animals.value;
    var index := FirstIndex(list, id);
    if index == -1 {
      return Failure(NotFoundMessage);
    }
    var updated := Merge(list[index], patch, stamp);
    list := list[index := updated];
    st.SetItem(MockStorageKey, AnimalsJson(list));
    return Success(updated);
  }

  /** `deleteMockAnimal`: keeps, in order, every record whose id differs. */
  method DeleteMockAnimal(st: LocalStorage, id: string) returns (r: Result<(), string>)
    modifies st
    ensures old(GetMockAnimals(st)).Failure? ==> r.Failure? && st.items == old(st.items)
    ensures old(GetMockAnimals(st)).Success? ==>
      r.Success?
      && st.items == old(st.items)[MockStorageKey := AnimalsJson(Filter(old(GetMockAnimals(st)).value, IdIsNot(id)))]
  {
    var animals := GetMockAnimals(st);
    if animals.Failure? {
      return Failure(animals.error);
    }
    st.SetItem(MockStorageKey, AnimalsJson(Filter(animals.value, IdIsNot(id))));
    return Success(());
  }

  /** An update keeps the length, and every position but the first match. */
  lemma UpdateTouchesOneIndex(before: seq<Animal>, id: string, patch: AnimalPatch, stamp: string)
    requires !Absent(before, id)
    ensures var i := FirstIndex(before, id);
      var after := before[i := Merge(before[i], patch, stamp)];
      |after| == |before| && before[i].id == id
      && (forall k :: 0 <= k < |before| && k != i ==> after[k] == before[k])
      && (forall k :: 0 <= k < i ==> before[k].id != id)
  {
    var i := FirstIndex(before, id);
    assert forall k :: 0 <= k < i ==> before[..i][k] == before[k];
  }

  /** Created records are appended: earlier records keep their places, and it is owned by the developer user. */
  lemma CreateAppends(before: seq<Animal>, data: AnimalFormData, now: nat, stamp: string)
    ensures var a := NewMockAnimal(data, now, stamp);
      var after := before + [a];
      |after| == |before| + 1 && after[..|before|] == before && after[|before|] == a
      && a.ownerId == Some(MockUserId) && a.isOwner == Some(true) && a.createdAt == stamp == a.updatedAt
      && a.id[..5] == "mock-"
  {
  }

  /** Deleting removes every record with the id; deleting an absent id is a no-op. */
  lemma DeleteRemovesAll(before: seq<Animal>, id: string)
    ensures Absent(Filter(before, IdIsNot(id)), id)
    ensures forall a :: a in before && a.id != id ==> a in Filter(before, IdIsNot(id))
    ensures Absent(before, id) ==> Filter(before, IdIsNot(id)) == before
  {
    if Absent(before, id) {
      RemoveAbsent(before, id);
    }
  }

  /** The initial records have distinct ids, two owned by the developer user and one by another user. */
  lemma InitialAnimalsFacts()
    ensures |InitialAnimals()| == 3
    ensures forall i, j :: 0 <= i < j < 3 ==> InitialAnimals()[i].id != InitialAnimals()[j].id
    ensures Filter(InitialAnimals(), Owned) == InitialAnimals()[..2]
  {
    var s := InitialAnimals();
    assert s[1..][1..][1..] == [];
    assert s[..2] == [s[0], s[1]];
  }
}
