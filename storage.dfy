/** The browser's `localStorage` as the application uses it: a string map
    with two well-known entries. */
module Storage {
  import opened Wrappers

  /** Entry holding the anonymous identity of a device. */
  const AnonymousIdKey: string := "mh_anonymous_id"

  /** Entry holding the device encryption key of an anonymous user. */
  const DeviceKeyKey: string := "mh_device_key"

  /** JavaScript truthiness of `string | null`: present and non-empty. */
  predicate Truthy(v: Option<string>) {
    v.Some? && v.value != ""
  }

  class LocalStorage {
    var items: map<string, string>

    constructor()
      ensures items == map[]
    {
      items := map[];
    }

    /** `localStorage.getItem(key)`: the stored text, or null. */
    function GetItem(key: string): (r: Option<string>)
      reads this
      ensures r.Some? <==> key in items
      ensures r.Some? ==> r.value == items[key]
    {
      if key in items then Some(items[key]) else None
    }

    /** `localStorage.setItem(key, value)`. */
    method SetItem(key: string, value: string)
      modifies this
      ensures items == old(items)[key := value]
    {
      items := items[key := value];
    }

    /** `localStorage.removeItem(key)`: removing a missing key is no error. */
    method RemoveItem(key: string)
      modifies this
      ensures items == old(items) - {key}
    {
      items := items - {key};
    }
  }
}
