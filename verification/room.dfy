/**
 * The room page: its four-valued status machine, driven by the boot effect
 * (existence check, live subscription, snapshot and error callbacks,
 * teardown), the composer guards, and the send and leave handlers.
 *
 * Each run of the boot effect owns a closure (`unsub`, `cancelled`); it is a
 * `BootRun` object, so that a run torn down on a route change can still
 * deliver its late results while the next run is active.
 */
module RoomPage {
  import opened JsValues
  import opened JsStrings
  import opened Browser
  import opened RoomChat

  const RoomNotFound: string := "Room not found."
  const LoadRoomFailed: string := "Failed to load room."
  const LoadMessagesFailed: string := "Failed to load messages."
  const SendFailed: string := "Failed to send."

  datatype Status = Loading | Ready | Empty | Error

  /** The message input is disabled while loading and after an error. */
  predicate InputDisabled(status: Status)
    ensures !InputDisabled(status) <==> status == Ready || status == Empty
  {
    status == Loading || status == Error
  }

  /**
   * The send button is also disabled while the typed text is blank: it is
   * enabled exactly when the input is and `sendMessage` would post the text.
   */
  predicate SendDisabled(text: string, status: Status)
    ensures !SendDisabled(text, status) <==> !InputDisabled(status) && !IsBlank(Some(text))
    ensures !SendDisabled(text, status) ==> status == Ready || status == Empty
  {
    Trim(text) == "" || InputDisabled(status)
  }

  /** The closure of one run of the boot effect. */
  class BootRun {
    /** The room code the run was started for. */
    const code: string
    /** `boot()` is awaiting `roomExists(code)`. */
    var checking: bool
    /** `unsub` holds a live listener. */
    var subscribed: bool
    /** The run's `cancelled` flag. */
    var cancelled: bool
    /** Teardown has called `unsub()`. */
    var unsubscribed: bool

    ghost predicate Valid()
      reads this
    {
      (unsubscribed ==> subscribed && cancelled) && (checking ==> !subscribed)
    }

    /** No listener of a torn-down run is left running. */
    predicate NoLeak()
      reads this
    {
      cancelled && subscribed ==> unsubscribed
    }

    constructor (code: string, checking: bool)
      ensures this.code == code && this.checking == checking
      ensures !subscribed && !cancelled && !unsubscribed
      ensures Valid() && NoLeak()
    {
      this.code := code;
      this.checking := checking;
      subscribed, cancelled, unsubscribed := false, false, false;
    }

    /** The effect's cleanup: set `cancelled`, and call `unsub()` when a listener is held. */
    method Teardown()
      requires Valid() && !cancelled
      modifies this
      ensures Valid() && NoLeak() && cancelled
      ensures unsubscribed <==> old(subscribed)
      ensures subscribed == old(subscribed) && checking == old(checking)
    {
      cancelled := true;
      if subscribed {
        unsubscribed := true;
      }
    }
  }

  class Room {
    const window: Window
    const store: Store
    /** `normalizeRoomCode(paramCode)` */
    var code: string
    var name: string
    var status: Status
    var error: string
    var messages: seq<Fields>
    var text: string

    /** `ready` shows a non-empty list and `empty` an empty one. */
    ghost predicate Valid()
      reads this
    {
      (status == Ready ==> messages != []) && (status == Empty ==> messages == [])
    }

    /** The page's initial state for the route parameter `param`. */
    constructor (window: Window, store: Store, param: Option<string>)
      ensures this.window == window && this.store == store
      ensures code == NormalizeRoomCode(param) && name == OrEmpty(window.GetItem(NameKey))
      ensures status == Loading && error == "" && messages == [] && text == ""
      ensures Valid()
    {
      this.window := window;
      this.store := store;
      code := NormalizeRoomCode(param);
      name := OrEmpty(window.GetItem(NameKey));
      status, error, messages, text := Loading, "", [], "";
    }

    /** The route parameter changes: the code is normalised again, all other state is kept. */
    method SetRouteCode(param: Option<string>)
      modifies this
      ensures code == NormalizeRoomCode(param)
      ensures name == old(name) && status == old(status) && error == old(error)
      ensures messages == old(messages) && text == old(text)
    {
      code := NormalizeRoomCode(param);
    }

    /** The name guard effect: without a stored name, go back to the lobby. */
    method GuardName()
      modifies this, window
      ensures window.storage == old(window.storage)
      ensures OrEmpty(old(window.GetItem(NameKey))) == "" ==>
                window.history == old(window.history) + [Navigation("/", true)] && name == old(name)
      ensures OrEmpty(old(window.GetItem(NameKey))) != "" ==>
                window.history == old(window.history) && name == old(window.storage)[NameKey]
      ensures code == old(code) && status == old(status) && error == old(error)
      ensures messages == old(messages) && text == old(text)
    {
      var storedName := window.GetItem(NameKey);
      if OrEmpty(storedName) == "" {
        window.Navigate("/", true);
        return;
      }
      name := storedName.value;
    }

    /** The effect that remembers a non-empty room code for reconnecting. */
    method PersistRoom()
      modifies window
      ensures code != "" ==> window.storage == old(window.storage)[RoomKey := code]
      ensures code == "" ==> window.storage == old(window.storage)
      ensures window.history == old(window.history)
    {
      if code != "" {
        window.SetItem(RoomKey, code);
      }
    }

    /**
     * One run of the boot effect up to its first await: for a non-empty code,
     * reset the status to `loading`, clear the error and ask whether the room exists.
     */
    method Boot() returns (run: BootRun)
      requires Valid()
      modifies this
      ensures Valid()
      ensures fresh(run) && run.Valid() && run.code == code
      ensures !run.subscribed && !run.cancelled && !run.unsubscribed
      ensures run.checking <==> code != ""
      ensures code != "" ==> status == Loading && error == ""
      ensures code == "" ==> status == old(status) && error == old(error)
      ensures code == old(code) && name == old(name) && messages == old(messages) && text == old(text)
    {
      run := new BootRun(code, code != "");
      if code != "" {
        status := Loading;
        error := "";
      }
    }

    /**
     * `boot()` resumes after `roomExists(run.code)`, as written: `fault` is the
     * error the check throws, if it does. A missing room is reported and a
     * listener is set up without looking at `cancelled`; only the catch
     * branch looks at it.
     */
    method OnExistence(run: BootRun, fault: Option<Thrown>)
      requires Valid() && run.Valid() && run.checking
      modifies this, run
      ensures Valid() && run.Valid() && !run.checking
      ensures run.cancelled == old(run.cancelled) && run.unsubscribed == old(run.unsubscribed)
      ensures code == old(code) && name == old(name) && messages == old(messages) && text == old(text)
      ensures fault.Some? ==>
                && !run.subscribed
                && (old(run.cancelled) ==> status == old(status) && error == old(error))
                && (!old(run.cancelled) ==> status == Error && error == MessageOr(fault.value, LoadRoomFailed))
      ensures fault.None? && run.code !in store.rooms ==>
                !run.subscribed && status == Error && error == RoomNotFound
      ensures fault.None? && run.code in store.rooms ==>
                run.subscribed && status == old(status) && error == old(error)
    {
      run.checking := false;
      if fault.Some? {
        if run.cancelled {
          return;
        }
        status := Error;
        error := MessageOr(fault.value, LoadRoomFailed);
        return;
      }
      var exists_ := store.RoomExists(run.code);
      if !exists_ {
        status := Error;
        error := RoomNotFound;
        return;
      }
      run.subscribed := true;
    }

    /**
     * `boot()` resumes after `roomExists(run.code)`, looking at `cancelled`
     * first on every branch: a torn-down run changes nothing and sets up no listener.
     */
    method OnExistenceGuarded(run: BootRun, fault: Option<Thrown>)
      requires Valid() && run.Valid() && run.checking
      modifies this, run
      ensures Valid() && run.Valid() && run.NoLeak() && !run.checking
      ensures run.cancelled == old(run.cancelled) && run.unsubscribed == old(run.unsubscribed)
      ensures code == old(code) && name == old(name) && messages == old(messages) && text == old(text)
      ensures old(run.cancelled) ==> !run.subscribed && status == old(status) && error == old(error)
      ensures !old(run.cancelled) && fault.Some? ==>
                !run.subscribed && status == Error && error == MessageOr(fault.value, LoadRoomFailed)
      ensures !old(run.cancelled) && fault.None? && run.code !in store.rooms ==>
                !run.subscribed && status == Error && error == RoomNotFound
      ensures !old(run.cancelled) && fault.None? && run.code in store.rooms ==>
                run.subscribed && status == old(status) && error == old(error)
    {
      run.checking := false;
      if run.cancelled {
        return;
      }
      if fault.Some? {
        status := Error;
        error := MessageOr(fault.value, LoadRoomFailed);
        return;
      }
      var exists_ := store.RoomExists(run.code);
      if !exists_ {
        status := Error;
        error := RoomNotFound;
        return;
      }
      run.subscribed := true;
    }

    /**
     * The listener delivers a snapshot: unless the run is cancelled, the
     * delivered list replaces `messages` and the status follows its emptiness.
     */
    method OnSnapshot(run: BootRun, docs: seq<Doc>)
      requires Valid() && run.subscribed
      modifies this
      ensures Valid()
      ensures run.cancelled ==> status == old(status) && error == old(error) && messages == old(messages)
      ensures !run.cancelled ==>
                && messages == MessagesFromDocs(docs)
                && (status == Ready <==> docs != [])
                && (status == Empty <==> docs == [])
                && error == old(error)
      ensures code == old(code) && name == old(name) && text == old(text)
    {
      if run.cancelled {
        return;
      }
      messages := MessagesFromDocs(docs);
      status := if |messages| > 0 then Ready else Empty;
    }

    /** The listener reports an error: unless the run is cancelled, the page shows it. */
    method OnSubscriptionError(run: BootRun, e: Thrown)
      requires Valid() && run.subscribed
      modifies this
      ensures Valid()
      ensures run.cancelled ==> status == old(status) && error == old(error)
      ensures !run.cancelled ==> status == Error && error == MessageOr(e, LoadMessagesFailed)
      ensures code == old(code) && name == old(name) && messages == old(messages) && text == old(text)
    {
      if run.cancelled {
        return;
      }
      status := Error;
      error := MessageOr(e, LoadMessagesFailed);
    }

    /** The message input's change handler. */
    method SetText(next: string)
      modifies this
      ensures text == next
      ensures code == old(code) && name == old(name) && status == old(status)
      ensures error == old(error) && messages == old(messages)
    {
      text := next;
    }

    /**
     * `onSend`: post the typed text; clear it only when posting succeeds.
     * `fault` is the error the store's write throws, if it does; a blank text
     * is dropped before any write, so it cannot fail.
     */
    method OnSend(fault: Option<Thrown>)
      modifies this, store
      ensures code == old(code) && name == old(name) && status == old(status) && messages == old(messages)
      ensures store.rooms == old(store.rooms)
      ensures IsBlank(Some(old(text))) ==>
                text == "" && error == old(error) && store.logs == old(store.logs)
      ensures !IsBlank(Some(old(text))) && fault.None? ==>
                && text == "" && error == old(error)
                && store.logs == old(store.logs)[code := old(store.Log(code)) + [Message(name, Trim(old(text)))]]
      ensures !IsBlank(Some(old(text))) && fault.Some? ==>
                text == old(text) && error == MessageOr(fault.value, SendFailed) && store.logs == old(store.logs)
    {
      if fault.Some? && !IsBlank(Some(text)) {
        error := MessageOr(fault.value, SendFailed);
        return;
      }
      store.SendMessage(code, name, Some(text));
      text := "";
    }

    /** `onLeave`: forget the room and go back to the lobby. */
    method OnLeave()
      modifies window
      ensures window.storage == old(window.storage) - {RoomKey}
      ensures window.history == old(window.history) + [Navigation("/", true)]
    {
      window.RemoveItem(RoomKey);
      window.Navigate("/", true);
    }
  }

  // ---------------------------------------------------------------------------
  // Two runs of the boot effect that overlap

  /**
   * The user leaves while the existence check for an existing room is
   * pending: the page is torn down first, then the check succeeds and, as
   * written, opens a listener that nothing will ever close.
   */
  method LeaveWhileCheckingLeaks(code: string) returns (leaked: bool)
    requires IsTrimmed(code) && code != ""
    requires forall k :: 0 <= k < |code| ==> !IsLowerAscii(code[k])
    ensures leaked
  {
    NormalizeFixes(code);
    var window := new Window(map[NameKey := "Ann"]);
    var store := new Store({code}, map[]);
    var room := new Room(window, store, Some(code));
    var run := room.Boot();
    room.OnLeave();
    run.Teardown();
    room.OnExistence(run, None);
    leaked := !run.NoLeak();
  }

  /** The same sequence with the guarded continuation opens no listener. */
  method LeaveWhileCheckingGuarded(code: string) returns (leaked: bool)
    requires IsTrimmed(code) && code != ""
    requires forall k :: 0 <= k < |code| ==> !IsLowerAscii(code[k])
    ensures !leaked
  {
    NormalizeFixes(code);
    var window := new Window(map[NameKey := "Ann"]);
    var store := new Store({code}, map[]);
    var room := new Room(window, store, Some(code));
    var run := room.Boot();
    room.OnLeave();
    run.Teardown();
    room.OnExistenceGuarded(run, None);
    leaked := !run.NoLeak();
  }

  /**
   * The route moves from a missing room `gone` to an existing room `next`
   * while the first existence check is pending. The second room loads; then
   * the first run's late "not found", as written, puts the page for the
   * existing room in the error state.
   */
  method StaleNotFoundOverwrites(gone: string, next: string) returns (shown: string, status: Status)
    requires IsTrimmed(gone) && gone != "" && forall k :: 0 <= k < |gone| ==> !IsLowerAscii(gone[k])
    requires IsTrimmed(next) && next != "" && forall k :: 0 <= k < |next| ==> !IsLowerAscii(next[k])
    requires gone != next
    ensures shown == next && status == Error
  {
    NormalizeFixes(gone);
    NormalizeFixes(next);
    var window := new Window(map[NameKey := "Ann"]);
    var store := new Store({next}, map[next := [Message("Ann", "hi")]]);
    var room := new Room(window, store, Some(gone));
    // The facts asserted between the steps record the state each step
    // leaves; they keep the solver's work per step small.
    var first := room.Boot();
    assert first.code == gone && first.checking;
    room.SetRouteCode(Some(next));
    first.Teardown();
    assert room.code == next && first.checking && first.cancelled;
    var second := room.Boot();
    assert second.code == next && second.checking && !second.cancelled;
    assert store.rooms == {next} && gone !in store.rooms;
    room.OnExistence(second, None);
    assert second.subscribed && !second.cancelled && first.checking;
    var docs := [Doc("m1", Written(Message("Ann", "hi")))];
    room.OnSnapshot(second, docs);
    assert room.status == Ready && room.code == next && first.Valid();
    // only now does the first run's check come back: `gone` does not exist
    assert room.store == store && first.code !in store.rooms;
    room.OnExistence(first, None);
    shown, status := room.code, room.status;
  }

  /** With the guarded continuation the late result of the first run is ignored. */
  method StaleNotFoundIgnored(gone: string, next: string) returns (shown: string, status: Status)
    requires IsTrimmed(gone) && gone != "" && forall k :: 0 <= k < |gone| ==> !IsLowerAscii(gone[k])
    requires IsTrimmed(next) && next != "" && forall k :: 0 <= k < |next| ==> !IsLowerAscii(next[k])
    requires gone != next
    ensures shown == next && status == Ready
  {
    NormalizeFixes(gone);
    NormalizeFixes(next);
    var window := new Window(map[NameKey := "Ann"]);
    var store := new Store({next}, map[next := [Message("Ann", "hi")]]);
    var room := new Room(window, store, Some(gone));
    // The facts asserted between the steps record the state each step
    // leaves; they keep the solver's work per step small.
    var first := room.Boot();
    assert first.code == gone && first.checking;
    room.SetRouteCode(Some(next));
    first.Teardown();
    assert room.code == next && first.checking && first.cancelled;
    var second := room.Boot();
    assert second.code == next && second.checking && !second.cancelled;
    assert store.rooms == {next} && gone !in store.rooms;
    room.OnExistenceGuarded(second, None);
    assert second.subscribed && !second.cancelled && first.checking;
    var docs := [Doc("m1", Written(Message("Ann", "hi")))];
    room.OnSnapshot(second, docs);
    assert room.status == Ready && room.code == next && first.Valid();
    // only now does the first run's check come back: `gone` does not exist
    assert room.store == store && first.code !in store.rooms;
    room.OnExistenceGuarded(first, None);
    shown, status := room.code, room.status;
  }
}
