/**
 * The lobby page: name and room-code validation, the reconnect shortcut,
 * and the create/join handlers as transitions over the page state
 * (name, code, busy, error), the browser window and the store.
 */
module LobbyPage {
  import opened JsValues
  import opened JsStrings
  import opened Browser
  import opened RoomChat

  const NameError: string := "Name must be at least 2 characters."
  const CodeError: string := "Room code must be exactly 6 chars A\U{2013}Z/0\U{2013}9."
  const NotFoundError: string := "Room not found. Check the code or create a new room."
  const CreateFailed: string := "Failed to create room."
  const JoinFailed: string := "Failed to join room."

  /** `isValidName`: at least two UTF-16 code units once trimmed; a missing name is invalid. */
  predicate IsValidName(name: Option<string>)
    ensures name.None? ==> !IsValidName(name)
    ensures IsValidName(name) ==> Trim(OrEmpty(name)) != ""
  {
    Length(Trim(OrEmpty(name))) >= 2
  }

  /** A character of the class `[A-Z0-9]`. */
  predicate IsCodeChar(c: char) {
    'A' <= c <= 'Z' || '0' <= c <= '9'
  }

  /** `isValidCode`: the whole of `code || ""` matches `^[A-Z0-9]{6}$`; a missing code is invalid. */
  predicate IsValidCode(code: Option<string>)
    ensures code.None? ==> !IsValidCode(code)
  {
    var s := OrEmpty(code);
    |s| == 6 && forall k :: 0 <= k < |s| ==> IsCodeChar(s[k])
  }

  /** Two characters that are not white space, at positions `p < q`. */
  predicate TwoVisible(name: string) {
    exists p, q :: 0 <= p < q < |name| && !IsWhiteSpace(name[p]) && !IsWhiteSpace(name[q])
  }

  /** A character that is not white space and takes two UTF-16 code units. */
  predicate WideVisible(name: string) {
    exists p :: 0 <= p < |name| && !IsWhiteSpace(name[p]) && CodeUnits(name[p]) == 2
  }

  /** A valid name shows two characters, or one character above U+FFFF. */
  lemma ValidNameShows(name: string)
    requires IsValidName(Some(name))
    ensures TwoVisible(name) || WideVisible(name)
  {
    var i, j := TrimSlice(name);
    var t := Trim(name);
    if |t| >= 2 {
      assert t[0] == name[i] && t[|t| - 1] == name[j - 1];
      assert 0 <= i < j - 1 < |name| && !IsWhiteSpace(name[i]) && !IsWhiteSpace(name[j - 1]);
    } else {
      SingleCharLength(t);
      assert t[0] == name[i] && !IsWhiteSpace(name[i]) && CodeUnits(name[i]) == 2;
    }
  }

  /** Two visible characters, or one visible character above U+FFFF, make a name valid. */
  lemma ShownNameValid(name: string)
    requires TwoVisible(name) || WideVisible(name)
    ensures IsValidName(Some(name))
  {
    var i, j := TrimSlice(name);
    var t := Trim(name);
    if TwoVisible(name) {
      var p, q :| 0 <= p < q < |name| && !IsWhiteSpace(name[p]) && !IsWhiteSpace(name[q]);
      assert i <= p && q < j;
    } else {
      var p :| 0 <= p < |name| && !IsWhiteSpace(name[p]) && CodeUnits(name[p]) == 2;
      assert i <= p < j && t[p - i] == name[p];
      WideCharLength(t, p - i);
    }
  }

  /**
   * `isValidName` counts UTF-16 code units: a name is valid exactly when it
   * holds two characters that are not white space, or one such character
   * above U+FFFF.
   */
  lemma ValidNameIffTwoUnits(name: string)
    ensures IsValidName(Some(name)) <==> TwoVisible(name) || WideVisible(name)
  {
    if IsValidName(Some(name)) {
      ValidNameShows(name);
    }
    if TwoVisible(name) || WideVisible(name) {
      ShownNameValid(name);
    }
  }

  /** A single emoji (U+1F600, two UTF-16 code units) is a valid name. */
  lemma EmojiNameIsValid()
    ensures IsValidName(Some("\U{1F600}"))
  {
    var name := "\U{1F600}";
    assert !IsWhiteSpace(name[0]) && CodeUnits(name[0]) == 2;
    ShownNameValid(name);
  }

  /** Every symbol of `RoomChars` is in `[A-Z0-9]`. */
  lemma RoomCharIsCodeChar(k: nat)
    requires k < |RoomChars|
    ensures IsCodeChar(RoomChars[k])
  {
  }

  /** Letters sit at positions 0 to 25 of `RoomChars`, digits at 26 to 35. */
  lemma CodeCharPosition(c: char)
    requires IsCodeChar(c)
    ensures 'A' <= c <= 'Z' ==> RoomChars[c as int - 'A' as int] == c
    ensures '0' <= c <= '9' ==> RoomChars[26 + c as int - '0' as int] == c
  {
  }

  /** The symbols of `RoomChars` are exactly the characters of `[A-Z0-9]`. */
  lemma RoomCharsAreCodeChars(c: char)
    ensures c in RoomChars <==> IsCodeChar(c)
  {
    if c in RoomChars {
      var k :| 0 <= k < |RoomChars| && RoomChars[k] == c;
      RoomCharIsCodeChar(k);
    }
    if IsCodeChar(c) {
      CodeCharPosition(c);
    }
  }

  /** The lobby's pattern accepts exactly the codes the allocator can generate. */
  lemma ValidCodeIffRoomCode(s: string)
    ensures IsValidCode(Some(s)) <==> IsRoomCode(s)
  {
    forall k | 0 <= k < |s| {
      RoomCharsAreCodeChars(s[k]);
    }
  }

  /** Every generated code passes `isValidCode`. */
  lemma GeneratedCodeIsValid(block: seq<Index>)
    requires |block| == RoomCodeLen
    ensures IsValidCode(Some(CodeOf(block)))
  {
    ValidCodeIffRoomCode(CodeOf(block));
  }

  /** A valid code is a fixed point of `normalizeRoomCode`. */
  lemma ValidCodeIsNormal(s: string)
    requires IsValidCode(Some(s))
    ensures NormalizeRoomCode(Some(s)) == s
  {
    NormalizeFixes(s);
  }

  /** The reconnect condition: a non-empty stored name and a stored room that passes `isValidCode`. */
  predicate ShouldReconnect(storedName: Option<string>, storedRoom: Option<string>)
    ensures ShouldReconnect(storedName, storedRoom) ==>
              storedName.Some? && storedName.value != "" && storedRoom.Some? && IsRoomCode(storedRoom.value)
  {
    ValidCodeIffRoomCode(OrEmpty(storedRoom));
    OrEmpty(storedName) != "" && OrEmpty(storedRoom) != "" && IsValidCode(storedRoom)
  }

  /** What a successful join or create stores makes the next lobby visit reconnect to that room. */
  lemma StoredSessionReconnects(name: string, code: string)
    requires IsValidName(Some(name)) && IsValidCode(Some(code))
    ensures ShouldReconnect(Some(Trim(name)), Some(code))
  {
  }

  class Lobby {
    const window: Window
    const store: Store
    var name: string
    var code: string
    var busy: bool
    var error: string

    /** The page's initial state: name and code come from storage, or are empty. */
    constructor (window: Window, store: Store)
      ensures this.window == window && this.store == store
      ensures name == OrEmpty(window.GetItem(NameKey)) && code == OrEmpty(window.GetItem(RoomKey))
      ensures !busy && error == ""
    {
      this.window := window;
      this.store := store;
      name := OrEmpty(window.GetItem(NameKey));
      code := OrEmpty(window.GetItem(RoomKey));
      busy := false;
      error := "";
    }

    /** `normalizedCode`: the typed code, trimmed and upper-cased; a valid code is kept as typed. */
    function NormalizedCode(): (c: string)
      reads this
      ensures IsTrimmed(c) && forall k :: 0 <= k < |c| ==> !IsLowerAscii(c[k])
      ensures IsValidCode(Some(code)) ==> c == code
    {
      if IsValidCode(Some(code)) then ValidCodeIsNormal(code); NormalizeRoomCode(Some(code))
      else NormalizeRoomCode(Some(code))
    }

    /** The reconnect effect: enter the stored room when the stored session is usable. */
    method Reconnect()
      modifies window
      ensures window.storage == old(window.storage)
      ensures ShouldReconnect(old(window.GetItem(NameKey)), old(window.GetItem(RoomKey))) ==>
                window.history == old(window.history) + [Navigation(RoomPath(old(window.storage)[RoomKey]), true)]
      ensures !ShouldReconnect(old(window.GetItem(NameKey)), old(window.GetItem(RoomKey))) ==>
                window.history == old(window.history)
    {
      var storedName := window.GetItem(NameKey);
      var storedRoom := window.GetItem(RoomKey);
      if ShouldReconnect(storedName, storedRoom) {
        window.Navigate(RoomPath(storedRoom.value), true);
      }
    }

    /** `persistName(next)`: the name input's change handler. */
    method PersistName(next: string)
      modifies this, window
      ensures name == next && window.storage == old(window.storage)[NameKey := next]
      ensures window.history == old(window.history)
      ensures code == old(code) && busy == old(busy) && error == old(error)
    {
      name := next;
      window.SetItem(NameKey, next);
    }

    /** The code input's change handler. */
    method SetCode(next: string)
      modifies this
      ensures code == next
      ensures name == old(name) && busy == old(busy) && error == old(error)
    {
      code := next;
    }

    /**
     * `onCreate()`. `draws` feeds the random code generator; `fault` is the
     * error a store request throws, if one does.
     */
    method OnCreate(draws: seq<Index>, fault: Option<Thrown>)
      requires !busy
      modifies this, window, store
      ensures name == old(name) && code == old(code)
      ensures store.logs == old(store.logs)
      // the name is checked first, before any storage write or store request
      ensures !IsValidName(Some(old(name))) ==>
                && error == NameError && !busy
                && window.storage == old(window.storage) && window.history == old(window.history)
                && store.rooms == old(store.rooms)
      // a failing store request: the trimmed name is stored, nothing else happens
      ensures IsValidName(Some(old(name))) && fault.Some? ==>
                && error == MessageOr(fault.value, CreateFailed) && !busy
                && window.storage == old(window.storage)[NameKey := Trim(old(name))]
                && window.history == old(window.history)
                && store.rooms == old(store.rooms)
      ensures IsValidName(Some(old(name))) && fault.None? ==>
                var r := FirstFree(Candidates(None, draws), old(store.rooms));
                match r
                case Created(c) =>
                  && c !in old(store.rooms) && store.rooms == old(store.rooms) + {c}
                  && IsValidCode(Some(c))
                  && window.storage == old(window.storage)[NameKey := Trim(old(name))][RoomKey := c]
                  && window.history == old(window.history) + [Navigation(RoomPath(c), false)]
                  && error == "" && !busy
                  && ShouldReconnect(window.GetItem(NameKey), window.GetItem(RoomKey))
                case Searching =>
                  // createRoom has not resolved: the page is still busy
                  && store.rooms == old(store.rooms)
                  && window.storage == old(window.storage)[NameKey := Trim(old(name))]
                  && window.history == old(window.history)
                  && error == "" && busy
    {
      error := "";
      if !IsValidName(Some(name)) {
        error := NameError;
        return;
      }
      busy := true;
      window.SetItem(NameKey, Trim(name));
      if fault.Some? {
        error := MessageOr(fault.value, CreateFailed);
        busy := false;
        return;
      }
      var r := store.CreateRoom(None, draws);
      if r.Searching? {
        return;
      }
      ValidCodeIffRoomCode(r.code);
      StoredSessionReconnects(name, r.code);
      window.SetItem(RoomKey, r.code);
      window.Navigate(RoomPath(r.code), false);
      busy := false;
    }

    /** `onJoin()`. `fault` is the error the existence check throws, if it does. */
    method OnJoin(fault: Option<Thrown>)
      requires !busy
      modifies this, window
      ensures name == old(name) && code == old(code) && !busy
      // the name is checked first
      ensures !IsValidName(Some(old(name))) ==>
                error == NameError && window.storage == old(window.storage) && window.history == old(window.history)
      // then the shape of the normalised code, before the store is asked
      ensures IsValidName(Some(old(name))) && !IsValidCode(Some(NormalizeRoomCode(Some(old(code))))) ==>
                error == CodeError && window.storage == old(window.storage) && window.history == old(window.history)
      ensures IsValidName(Some(old(name))) && IsValidCode(Some(NormalizeRoomCode(Some(old(code))))) ==>
                var c := NormalizeRoomCode(Some(old(code)));
                if fault.Some? then
                  && error == MessageOr(fault.value, JoinFailed)
                  && window.storage == old(window.storage) && window.history == old(window.history)
                else if c !in store.rooms then
                  && error == NotFoundError
                  && window.storage == old(window.storage) && window.history == old(window.history)
                else
                  && error == ""
                  && window.storage == old(window.storage)[NameKey := Trim(old(name))][RoomKey := c]
                  && window.history == old(window.history) + [Navigation(RoomPath(c), false)]
                  && ShouldReconnect(window.GetItem(NameKey), window.GetItem(RoomKey))
    {
      error := "";
      if !IsValidName(Some(name)) {
        error := NameError;
        return;
      }
      var c := NormalizedCode();
      if !IsValidCode(Some(c)) {
        error := CodeError;
        return;
      }
      busy := true;
      if fault.Some? {
        error := MessageOr(fault.value, JoinFailed);
        busy := false;
        return;
      }
      var exists_ := store.RoomExists(c);
      if !exists_ {
        error := NotFoundError;
        busy := false;
        return;
      }
      StoredSessionReconnects(name, c);
      window.SetItem(NameKey, Trim(name));
      window.SetItem(RoomKey, c);
      window.Navigate(RoomPath(c), false);
      busy := false;
    }
  }
}
