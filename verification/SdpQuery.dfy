/**
  * The SDP client against the server: the many rounds of a query, and exactly when
  * they amount to asking the database directly.
  */
module SdpQuery {
  import opened Bytes
  import opened SdpElement
  import opened SdpPdu
  import opened SdpService

  const WATCHDOG: nat := 64

  datatype AttributeId = Single(id: u16) | Span(start: u16, end: u16)

  datatype ClientError = Protocol(code: u16) | Unexpected | Unparsable(error: SdpError)

  function Selector(a: AttributeId): Element {
    match a
    case Single(id) => Unsigned(id, 2)
    case Span(start, end) => Unsigned(0x1_0000 * start + end, 4)
  }

  function Pattern(uuids: seq<seq<byte>>): Element {
    Sequence(seq(|uuids|, i requires 0 <= i < |uuids| => Uuid(uuids[i])))
  }

  function IdList(selectors: seq<AttributeId>): Element {
    Sequence(seq(|selectors|, i requires 0 <= i < |selectors| => Selector(selectors[i])))
  }

  // ---------------------------------------------------------------------------
  // The client
  // ---------------------------------------------------------------------------

  // The two queries for attributes: of every matching record, or of one record.
  datatype Ask = OfMatching(pattern: Element, ids: Element) | OfRecord(handle: u32, ids: Element)

  function Request(ask: Ask, transaction: u16, continuation: seq<byte>): Pdu {
    match ask
    case OfMatching(pattern, ids) => SearchAttributeRequest(transaction, pattern, 0xFFFF, ids, continuation)
    case OfRecord(handle, ids) => AttributeRequest(transaction, handle, 0xFFFF, ids, continuation)
  }

  predicate Answers(ask: Ask, response: Pdu) {
    if ask.OfMatching? then response.SearchAttributeResponse? else response.AttributeResponse?
  }

  // Round after round until the server says it is done, or the watchdog has had enough: the bytes collected.
  function Collect(s: Server, transaction: u16, ask: Ask, continuation: seq<byte>, got: seq<byte>, rounds: nat)
    : (Server, u16, Result<seq<byte>, ClientError>)
    decreases rounds
  {
    if rounds == 0 then (s, transaction, Success(got))
    else
      var (t, response) := Handle(s, Request(ask, transaction, continuation));
      var next := (transaction + 1) % 0x1_0000;
      if Answers(ask, response) then
        if response.continuation == END then (t, next, Success(got + response.list))
        else Collect(t, next, ask, response.continuation, got + response.list, rounds - 1)
      else if response.ErrorResponse? then (t, next, Failure(Protocol(response.code)))
      else (t, next, Failure(Unexpected))
  }

  // Ids and values, two by two; a pair without an integer id is skipped, an element left over is dropped.
  function FromElements(elements: seq<Element>): seq<Attribute> {
    if |elements| < 2 then []
    else
      (if elements[0].Unsigned? then [Attribute(elements[0].value % 0x1_0000, elements[1])] else [])
      + FromElements(elements[2..])
  }

  function FromLists(elements: seq<Element>): seq<seq<Attribute>> {
    if elements == [] then []
    else (if elements[0].Sequence? then [FromElements(elements[0].elements)] else []) + FromLists(elements[1..])
  }

  function ParseLists(data: seq<byte>): Result<seq<seq<Attribute>>, ClientError> {
    if data == [] then Success([])
    else
      var r := ParseAt(data, 0, 0);
      if r.Failure? then Failure(Unparsable(r.error)) else Success(FromLists(Items(r.value.1)))
  }

  function SearchAttribute(s: Server, transaction: u16, uuids: seq<seq<byte>>, selectors: seq<AttributeId>)
    : Result<seq<seq<Attribute>>, ClientError>
  {
    var r := Collect(s, transaction, OfMatching(Pattern(uuids), IdList(selectors)), END, [], WATCHDOG).2;
    if r.Failure? then Failure(r.error) else ParseLists(r.value)
  }

  function ParseList(data: seq<byte>): Result<seq<Attribute>, ClientError> {
    if data == [] then Success([])
    else
      var r := ParseAt(data, 0, 0);
      if r.Failure? then Failure(Unparsable(r.error)) else Success(FromElements(Items(r.value.1)))
  }

  function GetAttributes(s: Server, transaction: u16, handle: u32,
                         selectors: seq<AttributeId>): Result<seq<Attribute>, ClientError> {
    var r := Collect(s, transaction, OfRecord(handle, IdList(selectors)), END, [], WATCHDOG).2;
    if r.Failure? then Failure(r.error) else ParseList(r.value)
  }

  // Round after round, collecting handles.
  function CollectHandles(s: Server, transaction: u16, pattern: Element, continuation: seq<byte>, got: seq<u32>,
                          rounds: nat)
    : Result<seq<u32>, ClientError>
    decreases rounds
  {
    if rounds == 0 then Success(got)
    else
      var (t, response) := Handle(s, SearchRequest(transaction, pattern, 0xFFFF, continuation));
      if response.SearchResponse? then
        if response.continuation == END then Success(got + response.handles)
        else CollectHandles(t, (transaction + 1) % 0x1_0000, pattern, response.continuation, got + response.handles,
                            rounds - 1)
      else if response.ErrorResponse? then Failure(Protocol(response.code))
      else Failure(Unexpected)
  }

  function SearchServices(s: Server, transaction: u16, uuids: seq<seq<byte>>): Result<seq<u32>, ClientError> {
    CollectHandles(s, transaction, Pattern(uuids), END, [], WATCHDOG)
  }

  // ---------------------------------------------------------------------------
  // Asking the database directly
  // ---------------------------------------------------------------------------

  predicate Wants(a: AttributeId, id: u16) {
    match a
    case Single(wanted) => id == wanted
    case Span(start, end) => start <= id <= end
  }

  function Wanted(attributes: seq<Attribute>, a: AttributeId): seq<Attribute> {
    if attributes == [] then []
    else (if Wants(a, attributes[0].id) then [attributes[0]] else []) + Wanted(attributes[1..], a)
  }

  function WantedAll(attributes: seq<Attribute>, selectors: seq<AttributeId>): seq<Attribute> {
    if selectors == [] then [] else Wanted(attributes, selectors[0]) + WantedAll(attributes, selectors[1..])
  }

  // Of the records with any of the UUIDs, in their order, the wanted attributes sorted by id, where there are any.
  function Query(records: seq<Record>, uuids: seq<seq<byte>>, selectors: seq<AttributeId>): seq<seq<Attribute>> {
    if records == [] then []
    else
      var list := if Matches(records[0].attributes, uuids) then SortById(WantedAll(records[0].attributes, selectors))
          else [];
      (if list != [] then [list] else []) + Query(records[1..], uuids, selectors)
  }

  lemma {:induction false} PatternUuids(uuids: seq<seq<byte>>)
    ensures Uuids(Items(Pattern(uuids))) == uuids
  {
    if uuids != [] {
      PatternUuids(uuids[1..]);
      assert Items(Pattern(uuids))[1..] == Items(Pattern(uuids[1..]));
    }
  }

  lemma {:induction false} RangeIsWanted(attributes: seq<Attribute>, a: AttributeId)
    ensures var e := Selector(a);
            InRange(attributes, Range(e.value, e.size).0, Range(e.value, e.size).1) == Wanted(attributes, a)
  {
    if attributes != [] {
      RangeIsWanted(attributes[1..], a);
      if a.Span? { assert (0x1_0000 * a.start + a.end) / 0x1_0000 == a.start; }
    }
  }

  lemma {:induction false} SelectedIsWanted(attributes: seq<Attribute>, selectors: seq<AttributeId>)
    ensures Selected(attributes, Items(IdList(selectors))) == WantedAll(attributes, selectors)
    decreases |selectors|
  {
    if selectors != [] {
      SelectedIsWanted(attributes, selectors[1..]);
      RangeIsWanted(attributes, selectors[0]);
      assert Items(IdList(selectors))[1..] == Items(IdList(selectors[1..]));
    }
  }

  lemma {:induction false} ListsAreQuery(records: seq<Record>, uuids: seq<seq<byte>>, selectors: seq<AttributeId>)
    ensures Lists(Matching(records, uuids), IdList(selectors)) == Query(records, uuids, selectors)
    decreases |records|
  {
    hide Matches, SortById, Lists, Selected, WantedAll;
    if records == [] {
      NoLists(IdList(selectors));
    } else {
      ListsAreQuery(records[1..], uuids, selectors);
      SelectedIsWanted(records[0].attributes, selectors);
      ListsFirst(records[0], Matching(records[1..], uuids), IdList(selectors));
    }
  }

  lemma NoLists(ids: Element)
    ensures Lists([], ids) == []
  {
  }

  lemma ListsFirst(r: Record, rest: seq<Record>, ids: Element)
    ensures var list := Chosen(r.attributes, ids);
            Lists([r] + rest, ids) == (if list != [] then [list] else []) + Lists(rest, ids)
    ensures [] + rest == rest
  {
    hide Chosen;
    assert ([r] + rest)[1..] == rest;
  }

  /** What the server has to say to the client's request is the query's answer, encoded. */
  lemma AnswerIsQuery(s: Server, transaction: u16, uuids: seq<seq<byte>>, selectors: seq<AttributeId>,
                      continuation: seq<byte>)
    ensures Answer(s, Request(OfMatching(Pattern(uuids), IdList(selectors)), transaction, continuation))
         == Some(Serialized(ListsElement(Query(s.records, uuids, selectors))))
  {
    hide Lists, Matching, Query, Uuids, Encode;
    PatternUuids(uuids);
    ListsAreQuery(s.records, uuids, selectors);
  }

  // ---------------------------------------------------------------------------
  // Collecting
  // ---------------------------------------------------------------------------

  /** From a stored answer: everything, if the rounds suffice, and otherwise as many slices as there are rounds. */
  lemma {:induction false} CollectDrains(s: Server, transaction: u16, ask: Ask, got: seq<byte>, rounds: nat,
                                         data: seq<byte>)
    requires s.current == Some(Data(data)) && rounds > 0
    ensures var cap := ByteCap(s.mtu, 0xFFFF);
            var r := Collect(s, transaction, ask, MORE, got, rounds).2;
            && (|data| <= rounds * cap ==> r == Success(got + data))
            && (|data| > rounds * cap ==> r == Success(got + data[..rounds * cap]))
    decreases rounds
  {
    var cap := ByteCap(s.mtu, 0xFFFF);
    var request := Request(ask, transaction, MORE);
    NextSlice(s, request, data);
    ResponseKind(s, ask, transaction);
    hide Handle;
    var t := Handle(s, request).0;
    assert rounds * cap == (rounds - 1) * cap + cap;
    if |data| > cap {
      if rounds == 1 {
        assert rounds * cap == cap;
      } else {
        CollectDrains(t, (transaction + 1) % 0x1_0000, ask, got + data[..cap], rounds - 1, data[cap..]);
        Reslice(got, data, cap, (rounds - 1) * cap);
      }
    } else {
      AtLeastOne(rounds, cap);
    }
  }

  lemma AtLeastOne(rounds: nat, cap: nat)
    requires rounds > 0
    ensures rounds * cap >= cap
  {
    assert rounds * cap == (rounds - 1) * cap + cap;
  }

  lemma ResponseKind(s: Server, ask: Ask, transaction: u16)
    requires s.current.Some?
    ensures Answers(ask, Handle(s, Request(ask, transaction, MORE)).1)
  {
    hide Lists, Matching, Uuids, Find, Chosen;
  }

  lemma Reslice<T>(got: seq<T>, data: seq<T>, cap: nat, more: nat)
    requires cap <= |data|
    ensures got + data[..cap] + data[cap..] == got + data
    ensures cap + more <= |data| ==> got + data[..cap] + data[cap..][..more] == got + data[..cap + more]
  {
    assert data[..cap] + data[cap..] == data;
    if cap + more <= |data| { assert data[..cap] + data[cap..][..more] == data[..cap + more]; }
  }

  /** The bytes a client collects are the answer, or as much of it as the watchdog lets through. */
  lemma CollectsAnswer(s: Server, transaction: u16, ask: Ask)
    requires Answer(s, Request(ask, transaction, END)).Some?
    ensures var data, cap := Answer(s, Request(ask, transaction, END)).value, ByteCap(s.mtu, 0xFFFF);
            var r := Collect(s, transaction, ask, END, [], WATCHDOG).2;
            && (|data| <= WATCHDOG * cap ==> r == Success(data))
            && (|data| > WATCHDOG * cap ==> r == Success(data[..WATCHDOG * cap]))
  {
    hide Handle, Answer;
    var request := Request(ask, transaction, END);
    var data := Answer(s, request).value;
    var stored := s.(current := Some(Data(data)));
    FreshIsStored(s, request);
    CollectDrains(stored, transaction, ask, [], WATCHDOG, data);
    assert Collect(s, transaction, ask, END, [], WATCHDOG) == Collect(stored, transaction, ask, MORE, [], WATCHDOG);
    assert [] + data == data;
    if |data| > WATCHDOG * ByteCap(s.mtu, 0xFFFF) {
      assert [] + data[..WATCHDOG * ByteCap(s.mtu, 0xFFFF)] == data[..WATCHDOG * ByteCap(s.mtu, 0xFFFF)];
    }
  }

  // ---------------------------------------------------------------------------
  // Reading the answer
  // ---------------------------------------------------------------------------

  lemma {:induction false} ListReads(list: seq<Attribute>)
    ensures FromElements(ListElements(list)) == list
  {
    if list != [] {
      ListReads(list[1..]);
      var elements := ListElements(list);
      assert elements[0] == Unsigned(list[0].id, 2) && elements[1] == list[0].value
             && elements[2..] == ListElements(list[1..]);
      assert Attribute(list[0].id, list[0].value) == list[0];
    }
  }

  lemma {:induction false} ListsRead(lists: seq<seq<Attribute>>)
    ensures FromLists(Items(ListsElement(lists))) == lists
  {
    if lists != [] {
      ListsRead(lists[1..]);
      ListReads(lists[0]);
      assert Items(ListsElement(lists))[1..] == Items(ListsElement(lists[1..]));
    }
  }

  // The records' values contain no URL that is not text.
  predicate ValidLists(lists: seq<seq<Attribute>>) { ValidText(ListsElement(lists)) }

  lemma NothingEncodes()
    ensures Encode(ListsElement([])) == Success([0x35, 0x00]) && Depth(ListsElement([])) == 1
  {
    var none := ListsElement([]).elements;
    assert none == [] && EncodeItems(none) == Success([]) && DepthOf(none) == 0;
    assert ToBe(0, 1) == ToBe(0, 0) + [0] && ToBe(0, 0) == [];
    assert Encode(ListsElement([])) == WithLength(6, []);
    assert [0x35] + ToBe(0, 1) + [] == [0x35, 0x00];
  }

  /**
    * The client's answer is the query's if and only if that answer can be encoded, nests within the parser's
    * limit, and fits the rounds the watchdog allows; how it is sliced, and so the MTU, makes no difference beyond that.
    */
  lemma ClientRefinesQuery(s: Server, transaction: u16, uuids: seq<seq<byte>>, selectors: seq<AttributeId>)
    requires ValidLists(Query(s.records, uuids, selectors))
    ensures var lists := Query(s.records, uuids, selectors);
            var answer := ListsElement(lists);
            SearchAttribute(s, transaction, uuids, selectors) == Success(lists)
            <==> (&& Encode(answer).Success? && Depth(answer) <= MAX_NESTING
                  && (|Encode(answer).value| <= WATCHDOG * ByteCap(s.mtu, 0xFFFF) || lists == []))
  {
    var lists := Query(s.records, uuids, selectors);
    var answer := ListsElement(lists);
    var data, cap := Serialized(answer), ByteCap(s.mtu, 0xFFFF);
    AnswerIsQuery(s, transaction, uuids, selectors, END);
    CollectsAnswer(s, transaction, OfMatching(Pattern(uuids), IdList(selectors)));
    NothingEncodes();
    hide Collect, Answer, Query, ListsElement, Encode, Depth, ParseAt, FromLists, ValidText;
    if Encode(answer).Success? {
      if |data| <= WATCHDOG * cap { WholeReads(lists, data); } else { PartReads(lists, data, WATCHDOG * cap); }
    }
  }

  lemma WholeReads(lists: seq<seq<Attribute>>, data: seq<byte>)
    requires ValidLists(lists) && Encode(ListsElement(lists)) == Success(data)
    ensures ParseLists(data) == Success(lists) <==> Depth(ListsElement(lists)) <= MAX_NESTING
  {
    var answer := ListsElement(lists);
    hide ListsElement, Encode, Depth, ParseAt, FromLists;
    assert StandsAt(data, 0, data) by { Whole(data); }
    RoundTripInContext(answer, data, 0, 0);
    EncodedIsNotEmpty(answer);
    ListsRead(lists);
  }

  lemma PartReads(lists: seq<seq<Attribute>>, data: seq<byte>, n: nat)
    requires Encode(ListsElement(lists)) == Success(data) && n < |data|
    ensures ParseLists(data[..n]) == Success(lists) <==> (n == 0 && lists == [])
  {
    if n > 0 { AnswerCutShort(ListsElement(lists), data, n); } else { assert data[..0] == []; }
  }

  lemma AnswerCutShort(e: Element, data: seq<byte>, n: nat)
    requires e.Sequence? && Encode(e) == Success(data) && 0 < n < |data|
    ensures ParseAt(data[..n], 0, 0).Failure? && data[..n] != []
  {
    hide Encode, ParseAt;
    CutElementFails(e, data, 0, n, 0);
  }

  /** The same for one record's attributes, and the error when there is no such record. */
  lemma GetRefinesRecord(s: Server, transaction: u16, handle: u32, selectors: seq<AttributeId>)
    ensures Find(s.records, handle).None? ==>
            GetAttributes(s, transaction, handle, selectors) == Failure(Protocol(0x0002))
    ensures Find(s.records, handle).Some? ==>
              var list := SortById(WantedAll(Find(s.records, handle).value.attributes, selectors));
              var answer := ListElement(list);
              ValidText(answer) ==>
                (GetAttributes(s, transaction, handle, selectors) == Success(list)
                 <==> (&& Encode(answer).Success? && Depth(answer) <= MAX_NESTING
                       && (|Encode(answer).value| <= WATCHDOG * ByteCap(s.mtu, 0xFFFF) || list == [])))
  {
    var record, ask := Find(s.records, handle), OfRecord(handle, IdList(selectors));
    if record.None? {
      Absent(s, transaction, ask);
    } else {
      var list := SortById(WantedAll(record.value.attributes, selectors));
      var answer := ListElement(list);
      if ValidText(answer) { RecordCase(s, transaction, handle, selectors, list); }
    }
  }

  lemma Absent(s: Server, transaction: u16, ask: Ask)
    requires ask.OfRecord? && Find(s.records, ask.handle).None?
    ensures Collect(s, transaction, ask, END, [], WATCHDOG).2 == Failure(Protocol(0x0002))
  {
    hide Lists, Matching, Uuids, Chosen;
  }

  lemma RecordCase(s: Server, transaction: u16, handle: u32, selectors: seq<AttributeId>, list: seq<Attribute>)
    requires Find(s.records, handle).Some?
             && list == SortById(WantedAll(Find(s.records, handle).value.attributes, selectors))
    requires ValidText(ListElement(list))
    ensures GetAttributes(s, transaction, handle, selectors) == Success(list)
       <==> (&& Encode(ListElement(list)).Success? && Depth(ListElement(list)) <= MAX_NESTING
             && (|Encode(ListElement(list)).value| <= WATCHDOG * ByteCap(s.mtu, 0xFFFF) || list == []))
  {
    var answer, cap, ask := ListElement(list), ByteCap(s.mtu, 0xFFFF), OfRecord(handle, IdList(selectors));
    var data := Serialized(answer);
    SelectedIsWanted(Find(s.records, handle).value.attributes, selectors);
    assert Answer(s, Request(ask, transaction, END)) == Some(data);
    CollectsAnswer(s, transaction, ask);
    EmptyListEncodes();
    hide Collect, Answer, Encode, Depth, ParseAt, FromElements, ValidText, ListElement, SortById, Find, WantedAll,
         Selected;
    if Encode(answer).Success? {
      EncodedIsNotEmpty(answer);
      if |data| <= WATCHDOG * cap {
        assert StandsAt(data, 0, data) by { Whole(data); }
        RoundTripInContext(answer, data, 0, 0);
        ListReads(list);
        ListItems(list);
      } else if cap > 0 {
        assert answer.Sequence? by { ListItems(list); }
        AnswerCutShort(answer, data, WATCHDOG * cap);
      } else {
        assert data[..WATCHDOG * cap] == [];
      }
    }
  }

  lemma ListItems(list: seq<Attribute>)
    ensures ListElement(list).Sequence? && Items(ListElement(list)) == ListElements(list)
  {
  }

  lemma EmptyListEncodes()
    ensures Encode(ListElement([])).Success? && Depth(ListElement([])) == 1 && |Encode(ListElement([])).value| == 2
  {
    NothingEncodes();
    assert ListElement([]) == Sequence([]) == ListsElement([]);
  }

  // ---------------------------------------------------------------------------
  // Searching for handles
  // ---------------------------------------------------------------------------

  lemma {:induction false} HandlesDrain(s: Server, transaction: u16, pattern: Element, got: seq<u32>, rounds: nat,
                                        left: seq<u32>)
    requires s.current.Some? && s.current.value.Remaining? && s.current.value.handles == left && rounds > 0
    ensures var cap, r := HandleCap(s.mtu), CollectHandles(s, transaction, pattern, MORE, got, rounds);
            && (|left| <= rounds * cap || left == [] ==> r == Success(got + left))
            && (|left| > rounds * cap ==> r == Success(got + left[..rounds * cap]))
    decreases rounds
  {
    var cap, request := HandleCap(s.mtu), SearchRequest(transaction, pattern, 0xFFFF, MORE);
    NextHandles(s, request, left);
    hide Handle;
    var t := Handle(s, request).0;
    assert rounds * cap == (rounds - 1) * cap + cap;
    if |left| > cap {
      var rest := left[cap..];
      if rounds == 1 {
        assert rounds * cap == cap;
      } else {
        HandlesDrain(t, (transaction + 1) % 0x1_0000, pattern, got + left[..cap], rounds - 1, rest);
        Reslice(got, left, cap, (rounds - 1) * cap);
      }
    } else {
      AtLeastOne(rounds, cap);
    }
  }

  lemma NextHandles(s: Server, request: Pdu, left: seq<u32>)
    requires request.SearchRequest? && request.continuation == MORE
    requires s.current.Some? && s.current.value.Remaining? && s.current.value.handles == left
    ensures var cap := HandleCap(s.mtu);
            var (t, response) := Handle(s, request);
            && response.SearchResponse? && t.mtu == s.mtu && t.records == s.records
            && response.continuation == (if |left| > cap then MORE else END)
            && response.handles == (if |left| > cap then left[..cap] else left)
            && t.current == Some(s.current.value.(handles := if |left| > cap then left[cap..] else []))
  {
    hide Matching, Uuids;
    assert left[..|left|] == left && left[|left|..] == [];
  }

  /**
    * The client finds the handles of all matching records if and only if there are not too many for the rounds allowed.
    */
  lemma SearchRefinesMatching(s: Server, transaction: u16, uuids: seq<seq<byte>>)
    ensures var handles := HandlesOf(Matching(s.records, uuids));
            SearchServices(s, transaction, uuids) == Success(handles)
            <==> (handles == [] || (|handles| <= 0xFFFF && |handles| <= WATCHDOG * HandleCap(s.mtu)))
  {
    var handles, pattern := HandlesOf(Matching(s.records, uuids)), Pattern(uuids);
    var left := handles[..Min(0xFFFF, |handles|)];
    var stored := s.(current := Some(Remaining(|handles| % 0x1_0000, left)));
    PatternUuids(uuids);
    FreshSearch(s, transaction, pattern, handles);
    hide Handle, Matching, HandlesOf;
    HandlesDrain(stored, transaction, pattern, [], WATCHDOG, left);
    assert SearchServices(s, transaction, uuids) == CollectHandles(stored, transaction, pattern, MORE, [], WATCHDOG);
    assert [] + left == left && |handles| <= 0xFFFF ==> left == handles;
    if |left| > WATCHDOG * HandleCap(s.mtu) { assert |left[..WATCHDOG * HandleCap(s.mtu)]| < |handles|; }
  }

  lemma FreshSearch(s: Server, transaction: u16, pattern: Element, handles: seq<u32>)
    requires handles == HandlesOf(Matching(s.records, Uuids(Items(pattern))))
    ensures Handle(s, SearchRequest(transaction, pattern, 0xFFFF, END))
         == Handle(s.(current := Some(Remaining(|handles| % 0x1_0000, handles[..Min(0xFFFF, |handles|)]))),
                   SearchRequest(transaction, pattern, 0xFFFF, MORE))
  {
    hide Matching, Uuids, HandlesOf;
  }

  // ---------------------------------------------------------------------------
  // What the nesting limit means for records
  // ---------------------------------------------------------------------------

  lemma {:induction false} ListDepth(list: seq<Attribute>, limit: nat)
    ensures DepthOf(ListElements(list)) <= limit <==> forall i :: 0 <= i < |list| ==> Depth(list[i].value) <= limit
  {
    if list != [] {
      ListDepth(list[1..], limit);
      var e := ListElements(list);
      assert e[0] == Unsigned(list[0].id, 2) && e[1..][0] == list[0].value && e[1..][1..] == ListElements(list[1..]);
      assert DepthOf(e) == Max(0, Max(Depth(list[0].value), DepthOf(ListElements(list[1..]))));
      forall i | 0 < i < |list| ensures list[i] == list[1..][i - 1] { }
    }
  }

  /** Two levels are the answer's own: a value of a record may nest thirty deep. */
  lemma {:induction false} NestingLimit(lists: seq<seq<Attribute>>)
    requires lists != []
    ensures Depth(ListsElement(lists)) <= MAX_NESTING
       <==> forall i, j :: 0 <= i < |lists| && 0 <= j < |lists[i]| ==> Depth(lists[i][j].value) <= MAX_NESTING - 2
  {
    EachList(lists);
    forall i | 0 <= i < |lists|
      ensures Depth(ListElement(lists[i])) <= MAX_NESTING - 1
         <==> forall j :: 0 <= j < |lists[i]| ==> Depth(lists[i][j].value) <= MAX_NESTING - 2
    {
      ListDepth(lists[i], MAX_NESTING - 2);
    }
  }

  lemma {:induction false} EachList(lists: seq<seq<Attribute>>)
    ensures Depth(ListsElement(lists)) <= MAX_NESTING
       <==> forall i :: 0 <= i < |lists| ==> Depth(ListElement(lists[i])) <= MAX_NESTING - 1
  {
    if lists != [] {
      EachList(lists[1..]);
      var e, rest := ListsElement(lists).elements, ListsElement(lists[1..]).elements;
      assert e[0] == ListElement(lists[0]) && e[1..] == rest;
      assert DepthOf(e) == Max(Depth(ListElement(lists[0])), DepthOf(rest));
      forall i | 0 < i < |lists| ensures lists[i] == lists[1..][i - 1] { }
    }
  }

  // ---------------------------------------------------------------------------
  // A value that is lost
  // ---------------------------------------------------------------------------

  // A value nested `n` deep.
  function Nest(n: nat): Element { if n == 0 then Nil else Sequence([Nest(n - 1)]) }

  lemma {:induction false} NestEncodes(n: nat)
    requires n <= 100
    ensures Depth(Nest(n)) == n && ValidText(Nest(n))
    ensures Encode(Nest(n)).Success? && |Encode(Nest(n)).value| == 2 * n + 1
  {
    if n > 0 {
      NestEncodes(n - 1);
      OneItem(Nest(n - 1));
    }
  }

  lemma OneItem(e: Element)
    ensures EncodeItems([e]) == Encode(e) && DepthOf([e]) == Depth(e) && (ValidTexts([e]) <==> ValidText(e))
  {
    hide Encode, Depth, ValidText;
    assert [e][1..] == [];
    if Encode(e).Success? { assert Encode(e).value + [] == Encode(e).value; }
  }

  /**
    * A record whose value nests 31 deep can be encoded, and the server encodes it, but the client cannot read the
    * answer.
    */
  lemma DeepValueIsLost()
    ensures exists s: Server, uuids: seq<seq<byte>>, selectors: seq<AttributeId> ::
              && Encode(ListsElement(Query(s.records, uuids, selectors))).Success?
              && |Encode(ListsElement(Query(s.records, uuids, selectors))).value| <= WATCHDOG * ByteCap(s.mtu, 0xFFFF)
              && SearchAttribute(s, 0, uuids, selectors) != Success(Query(s.records, uuids, selectors))
  {
    var uuid: seq<byte> := [0x02, 0x10];
    var deep := Attribute(0x0100, Nest(31));
    var attributes := [Attribute(0x0001, Uuid(uuid)), deep];
    var s := Server([Record(0, attributes)], None, 672);
    var lists := Query(s.records, [uuid], [Single(0x0100)]);
    DeepQuery(s, uuid, attributes, deep);
    NestEncodes(31);
    DeepAnswer(deep);
    ClientRefinesQuery(s, 0, [uuid], [Single(0x0100)]);
  }

  lemma DeepQuery(s: Server, uuid: seq<byte>, attributes: seq<Attribute>, deep: Attribute)
    requires deep.id == 0x0100 && attributes == [Attribute(0x0001, Uuid(uuid)), deep]
             && s.records == [Record(0, attributes)]
    ensures Query(s.records, [uuid], [Single(0x0100)]) == [[deep]]
  {
    assert InValue(uuid, attributes[0].value) && HasUuid(attributes, [uuid][0]) && Matches(attributes, [uuid]);
    assert attributes[1..] == [deep] && [deep][1..] == [];
    assert Wanted([deep], Single(0x0100)) == [deep] + [] && Wanted(attributes, Single(0x0100)) == [deep];
    assert [Single(0x0100)][1..] == [] && WantedAll(attributes, [Single(0x0100)]) == [deep] + [];
    assert SortById([]) == [] && [deep][..0] == [] && SortById([deep]) == Insert([], deep) == [] + [deep];
    assert s.records[1..] == [] && Query([], [uuid], [Single(0x0100)]) == [];
    assert [[deep]] + [] == [[deep]];
  }

  lemma DeepAnswer(deep: Attribute)
    requires Depth(deep.value) == 31 && ValidText(deep.value) && deep.id == 0x0100
    requires Encode(deep.value).Success? && |Encode(deep.value).value| == 63
    ensures var answer := ListsElement([[deep]]);
            Encode(answer).Success? && |Encode(answer).value| == 70 && Depth(answer) == 33 && ValidText(answer)
  {
    hide Nest;
    var id := Unsigned(0x0100, 2);
    var list := ListElements([deep]);
    assert [deep][1..] == [] && ListElements([]) == [];
    assert list == [id, deep.value] + [];
    assert list[1..] == [deep.value];
    OneItem(deep.value);
    Pow256Values();
    assert Encode(id).Success? && |Encode(id).value| == 3;
    assert EncodeItems(list) == Success(Encode(id).value + Encode(deep.value).value);
    assert DepthOf(list) == 31 && ValidTexts(list);
    var inner := Sequence(list);
    assert Encode(inner).Success? && |Encode(inner).value| == 68 && Depth(inner) == 32;
    OneItem(inner);
    assert ListsElement([[deep]]) == Sequence([inner]);
  }
}
