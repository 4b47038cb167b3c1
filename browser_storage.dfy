/**
 * The browser's `localStorage`, as a map from key to stored item. Values the
 * program writes with `JSON.stringify` are kept as the values themselves
 * (parsing them back gives them unchanged); any other value is plain text.
 */
module BrowserStorage {
  import opened Wrappers
  import FrontendTypes

  datatype Item =
    | Text(text: string)
    | UserJson(user: FrontendTypes.User)
    | AnimalsJson(animals: seq<FrontendTypes.Animal>)

  /** JavaScript truthiness of `getItem`: `null` and `""` are falsy; stringified JSON never is empty. */
  predicate Truthy(v: Option<Item>)
  {
    v.Some? && v.value != Text("")
  }

  class LocalStorage {
    var items: map<string, Item>

    constructor ()
      ensures items == map[]
    {
      items := map[];
    }

    function GetItem(key: string): (v: Option<Item>)
      reads this
      ensures v.Some? <==> key in items
      ensures v.Some? ==> v.value == items[key]
    {
      if key in items then Some(items[key]) else None
    }

    method SetItem(key: string, value: Item)
      modifies this
      ensures items == old(items)[key := value]
    {
      items := items[key := value];
    }

    method RemoveItem(key: string)
      modifies this
      ensures items == old(items) - {key}
    {
      items := items - {key};
    }
  }
}
