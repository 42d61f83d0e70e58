/**
 * The browser facilities both pages use, as abstract state: the
 * `localStorage` key/value store and the router's navigation history.
 */
module Browser {
  import opened JsValues

  /** Storage key of the display name. */
  const NameKey: string := "monash_name"
  /** Storage key of the last room code. */
  const RoomKey: string := "monash_roomCode"

  /** One call of `navigate(path, { replace })`. */
  datatype Navigation = Navigation(path: string, replace: bool)

  /** The route of a chat room: `/room/<code>`. */
  function RoomPath(code: string): (p: string)
    ensures |p| == |"/room/"| + |code|
    ensures p[..|"/room/"|] == "/room/" && p[|"/room/"|..] == code
  {
    "/room/" + code
  }

  class Window {
    /** `localStorage`, one entry per key that is set. */
    var storage: map<string, string>
    /** Every navigation performed, oldest first. */
    var history: seq<Navigation>

    constructor (initial: map<string, string>)
      ensures storage == initial && history == []
    {
      storage := initial;
      history := [];
    }

    /** `localStorage.getItem(key)`: `null` for a key that is not set. */
    function GetItem(key: string): (v: Option<string>)
      reads this
      ensures v.Some? <==> key in storage
      ensures v.Some? ==> v.value == storage[key]
    {
      if key in storage then Some(storage[key]) else None
    }

    /** `localStorage.setItem(key, value)` */
    method SetItem(key: string, value: string)
      modifies this
      ensures storage == old(storage)[key := value]
      ensures history == old(history)
    {
      storage := storage[key := value];
    }

    /** `localStorage.removeItem(key)` */
    method RemoveItem(key: string)
      modifies this
      ensures storage == old(storage) - {key}
      ensures key !in storage
      ensures history == old(history)
    {
      storage := storage - {key};
    }

    /** `navigate(path, { replace })` */
    method Navigate(path: string, replace: bool)
      modifies this
      ensures history == old(history) + [Navigation(path, replace)]
      ensures storage == old(storage)
    {
      history := history + [Navigation(path, replace)];
    }
  }
}
