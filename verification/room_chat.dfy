/**
 * The data-access layer of the chat client: room-code helpers, room
 * allocation and message posting against the realtime document store.
 * The store is abstract state: the set of room codes whose room document
 * exists, and per room the messages posted to it, oldest first.
 */
module RoomChat {
  import opened JsValues
  import opened JsStrings

  const RoomCodeLen: nat := 6
  const RoomChars: string := "ABCDEFGHIJKLMNOPQRSTUVWXYZ0123456789"

  /** What `Math.floor(Math.random() * ROOM_CHARS.length)` yields: an index into `RoomChars`. */
  type Index = i: nat | i < 36

  /** A code of the shape the allocator generates: six symbols of `RoomChars`. */
  predicate IsRoomCode(code: string) {
    |code| == RoomCodeLen && forall k :: 0 <= k < |code| ==> code[k] in RoomChars
  }

  // ---------------------------------------------------------------------------
  // normalizeRoomCode

  /** `(input || "").trim().toUpperCase()` */
  function NormalizeRoomCode(input: Option<string>): (r: string)
    ensures input.None? ==> r == ""
    ensures IsTrimmed(r)
    ensures forall k :: 0 <= k < |r| ==> !IsLowerAscii(r[k])
    ensures |r| <= |OrEmpty(input)|
  {
    var t := Trim(OrEmpty(input));
    ToUpperKeepsTrimmed(t);
    ToUpper(t)
  }

  /** A string with no surrounding white space and no lower-case ASCII letter is already normal. */
  lemma NormalizeFixes(s: string)
    requires IsTrimmed(s)
    requires forall k :: 0 <= k < |s| ==> !IsLowerAscii(s[k])
    ensures NormalizeRoomCode(Some(s)) == s
  {
    TrimOfTrimmed(s);
    ToUpperOfUpper(s);
  }

  /** Normalising an already normalised code changes nothing. */
  lemma NormalizeIdempotent(input: Option<string>)
    ensures NormalizeRoomCode(Some(NormalizeRoomCode(input))) == NormalizeRoomCode(input)
  {
    NormalizeFixes(NormalizeRoomCode(input));
  }

  // ---------------------------------------------------------------------------
  // generateRoomCode

  /** The code spelled by six oracle indices, one symbol of `RoomChars` per index. */
  function CodeOf(block: seq<Index>): (code: string)
    requires |block| == RoomCodeLen
    ensures IsRoomCode(code)
  {
    seq(RoomCodeLen, k requires 0 <= k < RoomCodeLen => RoomChars[block[k]])
  }

  /** `generateRoomCode()`, with the six random draws supplied by `block`. */
  method GenerateRoomCode(block: seq<Index>) returns (code: string)
    requires |block| == RoomCodeLen
    ensures code == CodeOf(block)
    ensures IsRoomCode(code)
  {
    code := "";
    for i := 0 to RoomCodeLen
      invariant |code| == i
      invariant forall k :: 0 <= k < i ==> code[k] == RoomChars[block[k]]
    {
      code := code + [RoomChars[block[i]]];
    }
  }

  // ---------------------------------------------------------------------------
  // createRoom: the codes it tries and the one it settles on

  /** One generated code per complete block of six oracle indices, in draw order. */
  function Generated(draws: seq<Index>): (codes: seq<string>)
    ensures |codes| == |draws| / RoomCodeLen
    ensures forall c :: c in codes ==> IsRoomCode(c)
    decreases |draws|
  {
    if |draws| < RoomCodeLen then []
    else [CodeOf(draws[..RoomCodeLen])] + Generated(draws[RoomCodeLen..])
  }

  /** The codes `createRoom` tries in turn: a non-empty preferred code first, then generated codes. */
  function Candidates(preferred: Option<string>, draws: seq<Index>): (c: seq<string>)
    ensures |c| == (if OrEmpty(preferred) != "" then 1 else 0) + |draws| / RoomCodeLen
    ensures OrEmpty(preferred) != "" ==> c[0] == OrEmpty(preferred)
    ensures forall k :: 0 <= k < |c| ==> c[k] == OrEmpty(preferred) || IsRoomCode(c[k])
  {
    (if OrEmpty(preferred) != "" then [OrEmpty(preferred)] else []) + Generated(draws)
  }

  /**
   * The outcome of `createRoom`: the code it created, or `Searching` when every
   * code the oracle allows is taken (the source keeps looping there).
   */
  datatype Allocation = Created(code: string) | Searching

  /** The first candidate not taken, as the check-then-create loop finds it. */
  function FirstFree(candidates: seq<string>, taken: set<string>): (r: Allocation)
    ensures r.Created? ==> r.code in candidates && r.code !in taken
    decreases |candidates|
  {
    if candidates == [] then Searching
    else if candidates[0] !in taken then Created(candidates[0])
    else FirstFree(candidates[1..], taken)
  }

  /** The search fails exactly when every candidate is taken. */
  lemma {:induction false} FirstFreeIsFree(candidates: seq<string>, taken: set<string>)
    ensures FirstFree(candidates, taken).Searching? <==> forall c :: c in candidates ==> c in taken
  {
    if candidates != [] && candidates[0] in taken {
      FirstFreeIsFree(candidates[1..], taken);
      assert candidates == [candidates[0]] + candidates[1..];
    }
  }

  /** One step of the search: a free head is chosen, a taken head is skipped. */
  lemma FirstFreeCons(c: string, rest: seq<string>, taken: set<string>)
    ensures FirstFree([c] + rest, taken) == if c !in taken then Created(c) else FirstFree(rest, taken)
  {
    assert ([c] + rest)[0] == c && ([c] + rest)[1..] == rest;
  }

  /** Candidates already found taken do not change which code is chosen. */
  lemma {:induction false} FirstFreeSkipsTaken(tried: seq<string>, rest: seq<string>, taken: set<string>)
    requires forall c :: c in tried ==> c in taken
    ensures FirstFree(tried + rest, taken) == FirstFree(rest, taken)
  {
    if tried != [] {
      assert tried[0] in tried;
      assert (tried + rest)[0] == tried[0];
      assert (tried + rest)[1..] == tried[1..] + rest;
      assert FirstFree(tried + rest, taken) == FirstFree(tried[1..] + rest, taken);
      assert forall c :: c in tried[1..] ==> c in tried;
      FirstFreeSkipsTaken(tried[1..], rest, taken);
    } else {
      assert tried + rest == rest;
    }
  }

  /** A non-empty preferred code that is free is the code created. */
  lemma PreferredWhenFree(preferred: Option<string>, draws: seq<Index>, taken: set<string>)
    requires OrEmpty(preferred) != "" && OrEmpty(preferred) !in taken
    ensures FirstFree(Candidates(preferred, draws), taken) == Created(OrEmpty(preferred))
  {
  }

  /** When the preferred code is empty or taken, the code created is a generated one. */
  lemma {:induction false} FallbackIsGenerated(preferred: Option<string>, draws: seq<Index>, taken: set<string>)
    requires OrEmpty(preferred) == "" || OrEmpty(preferred) in taken
    ensures FirstFree(Candidates(preferred, draws), taken).Created? ==>
              IsRoomCode(FirstFree(Candidates(preferred, draws), taken).code)
  {
    var head: seq<string> := if OrEmpty(preferred) != "" then [OrEmpty(preferred)] else [];
    FirstFreeSkipsTaken(head, Generated(draws), taken);
    FirstFreeIsFree(Generated(draws), taken);
  }

  /** What the allocator's choice guarantees, gathered for `Store.CreateRoom`. */
  lemma AllocationFacts(preferred: Option<string>, draws: seq<Index>, taken: set<string>)
    ensures var r := FirstFree(Candidates(preferred, draws), taken);
            && (r.Created? ==> r.code !in taken)
            && (OrEmpty(preferred) != "" && OrEmpty(preferred) !in taken ==> r == Created(OrEmpty(preferred)))
            && (OrEmpty(preferred) == "" || OrEmpty(preferred) in taken ==> (r.Created? ==> IsRoomCode(r.code)))
  {
    FirstFreeIsFree(Candidates(preferred, draws), taken);
    if OrEmpty(preferred) != "" && OrEmpty(preferred) !in taken {
      PreferredWhenFree(preferred, draws, taken);
    } else {
      FallbackIsGenerated(preferred, draws, taken);
    }
  }

  // ---------------------------------------------------------------------------
  // Messages

  /** The fields this client writes into a message document (the server timestamp is left out). */
  datatype Message = Message(senderName: string, text: string)

  /** The data of a document, field by field (string-valued fields only). */
  type Fields = map<string, string>

  /** The data `sendMessage` writes for a message. */
  function Written(m: Message): (data: Fields)
    ensures data.Keys == {"senderName", "text"}
    ensures data["senderName"] == m.senderName && data["text"] == m.text
  {
    map["senderName" := m.senderName, "text" := m.text]
  }

  /** A document of a snapshot: its store-assigned id and its data, which may hold any fields. */
  datatype Doc = Doc(id: string, data: Fields)

  /**
   * `{ id: d.id, ...d.data() }`: the data's fields are copied after the
   * document id, so a data field named `id` replaces it, and a field the
   * data lacks stays absent.
   */
  function Delivered(d: Doc): (m: Fields)
    ensures m.Keys == d.data.Keys + {"id"}
    ensures m["id"] == if "id" in d.data then d.data["id"] else d.id
    ensures forall f :: f in d.data ==> m[f] == d.data[f]
  {
    map["id" := d.id] + d.data
  }

  /** A message this client wrote comes back with its document id, sender and text, and nothing else. */
  lemma WrittenMessageDelivered(id: string, m: Message)
    ensures Delivered(Doc(id, Written(m))) == map["id" := id, "senderName" := m.senderName, "text" := m.text]
  {
    var d := Delivered(Doc(id, Written(m)));
    var e := map["id" := id, "senderName" := m.senderName, "text" := m.text];
    assert "id" !in Written(m);
    assert d.Keys == e.Keys;
  }

  /** The snapshot mapping of `subscribeMessages`: one delivered message per document, in snapshot order. */
  function MessagesFromDocs(docs: seq<Doc>): (msgs: seq<Fields>)
    ensures |msgs| == |docs|
    ensures forall k :: 0 <= k < |docs| ==> msgs[k] == Delivered(docs[k])
  {
    if docs == [] then []
    else [Delivered(docs[0])] + MessagesFromDocs(docs[1..])
  }

  /** True of a text `sendMessage` drops: missing, empty or white space only. */
  predicate IsBlank(text: Option<string>)
    ensures text.None? ==> IsBlank(text)
    ensures !IsBlank(text) ==> |Trim(OrEmpty(text))| > 0 && !IsWhiteSpace(Trim(OrEmpty(text))[0])
  {
    Trim(OrEmpty(text)) == ""
  }

  /** A text is blank exactly when every character of it is white space. */
  lemma BlankIffAllWhiteSpace(text: Option<string>)
    ensures IsBlank(text) <==> forall k :: 0 <= k < |OrEmpty(text)| ==> IsWhiteSpace(OrEmpty(text)[k])
  {
    var s := OrEmpty(text);
    var i, j := TrimSlice(s);
    if !IsBlank(text) {
      assert Trim(s)[0] == s[i] && !IsWhiteSpace(s[i]);
    } else {
      assert i == j;
      forall k | 0 <= k < |s| ensures IsWhiteSpace(s[k]) {
        assert k < i || j <= k;
      }
    }
  }

  // ---------------------------------------------------------------------------
  // The store

  class Store {
    /** Codes whose room document exists. */
    var rooms: set<string>
    /** Messages posted per room code, in posting order. */
    var logs: map<string, seq<Message>>

    constructor (rooms0: set<string>, logs0: map<string, seq<Message>>)
      ensures rooms == rooms0 && logs == logs0
    {
      rooms := rooms0;
      logs := logs0;
    }

    /** The message collection of room `code`; a collection never written is empty. */
    function Log(code: string): seq<Message>
      reads this
    {
      if code in logs then logs[code] else []
    }

    /** `roomExists(code)` */
    method RoomExists(code: string) returns (exists_: bool)
      ensures exists_ <==> code in rooms
    {
      exists_ := code in rooms;
    }

    /**
     * `createRoom(preferredCode)`: try the candidates in turn and create the
     * first one whose room does not exist; `draws` feeds every `generateRoomCode`.
     */
    method CreateRoom(preferred: Option<string>, draws: seq<Index>) returns (r: Allocation)
      modifies this
      ensures r == FirstFree(Candidates(preferred, draws), old(rooms))
      ensures r.Created? ==> r.code !in old(rooms) && rooms == old(rooms) + {r.code}
      ensures r.Searching? ==> rooms == old(rooms)
      ensures logs == old(logs)
      ensures OrEmpty(preferred) != "" && OrEmpty(preferred) !in old(rooms) ==> r == Created(OrEmpty(preferred))
      ensures OrEmpty(preferred) == "" || OrEmpty(preferred) in old(rooms) ==> (r.Created? ==> IsRoomCode(r.code))
    {
      AllocationFacts(preferred, draws, rooms);
      ghost var choice := FirstFree(Candidates(preferred, draws), rooms);
      var rest := draws;
      var code: string;
      if OrEmpty(preferred) != "" {
        code := OrEmpty(preferred);
        assert Candidates(preferred, draws) == [code] + Generated(rest);
      } else if |rest| < RoomCodeLen {
        assert Candidates(preferred, draws) == [];
        r := Searching;
        return;
      } else {
        assert Candidates(preferred, draws) == Generated(rest);
        code := GenerateRoomCode(rest[..RoomCodeLen]);
        rest := rest[RoomCodeLen..];
      }
      while code in rooms
        invariant choice == FirstFree([code] + Generated(rest), rooms)
        invariant rooms == old(rooms) && logs == old(logs)
        decreases |rest|
      {
        FirstFreeCons(code, Generated(rest), rooms);
        if |rest| < RoomCodeLen {
          r := Searching;
          return;
        }
        code := GenerateRoomCode(rest[..RoomCodeLen]);
        rest := rest[RoomCodeLen..];
      }
      FirstFreeCons(code, Generated(rest), rooms);
      rooms := rooms + {code};
      r := Created(code);
    }

    /**
     * `sendMessage(code, senderName, text)`: a blank text posts nothing; any
     * other posts one message, the trimmed text under the sender's name as given.
     */
    method SendMessage(code: string, senderName: string, text: Option<string>)
      modifies this
      ensures rooms == old(rooms)
      ensures IsBlank(text) ==> logs == old(logs)
      ensures !IsBlank(text) ==>
                logs == old(logs)[code := old(Log(code)) + [Message(senderName, Trim(OrEmpty(text)))]]
      ensures forall c :: c != code ==> Log(c) == old(Log(c))
      ensures |Log(code)| == |old(Log(code))| + (if IsBlank(text) then 0 else 1)
      ensures Log(code)[..|old(Log(code))|] == old(Log(code))
      ensures !IsBlank(text) ==> IsTrimmed(Log(code)[|Log(code)| - 1].text) && Log(code)[|Log(code)| - 1].text != ""
    {
      var trimmed := Trim(OrEmpty(text));
      if trimmed == "" {
        return;
      }
      logs := logs[code := Log(code) + [Message(senderName, trimmed)]];
    }
  }
}
