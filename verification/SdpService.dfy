/**
  * The SDP server: matching records, selecting attributes, and handing out an answer
  * that does not fit one response in slices, under a continuation state.
  */
module SdpService {
  import opened Bytes
  import opened SdpElement
  import opened SdpPdu

  datatype Attribute = Attribute(id: u16, value: Element)

  datatype Record = Record(handle: u32, attributes: seq<Attribute>)

  // The answer a continuation is draining.
  datatype Current = Data(data: seq<byte>) | Remaining(total: u16, handles: seq<u32>)

  datatype Server = Server(records: seq<Record>, current: Option<Current>, mtu: u16)

  const MORE: seq<byte> := [0x01, 0x00]
  const END: seq<byte> := [0x00]

  // ---------------------------------------------------------------------------
  // Matching and selecting
  // ---------------------------------------------------------------------------

  const BASE_UUID: seq<byte> := [0xFB, 0x34, 0x9B, 0x5F, 0x80, 0x00, 0x00, 0x80, 0x00, 0x10, 0x00, 0x00]

  // The 128-bit form of a UUID, which is what equality of UUIDs compares.
  function Expand(uuid: seq<byte>): seq<byte> {
    if |uuid| == 2 then BASE_UUID + uuid + [0, 0] else if |uuid| == 4 then BASE_UUID + uuid else uuid
  }

  predicate SameUuid(a: seq<byte>, b: seq<byte>) { Expand(a) == Expand(b) }

  // The UUID is the value or stands in it, inside sequences but not inside alternatives.
  predicate InValue(uuid: seq<byte>, value: Element)
    decreases value
  {
    match value
    case Uuid(candidate) => SameUuid(candidate, uuid)
    case Sequence(elements) => InSome(uuid, elements)
    case _ => false
  }

  predicate InSome(uuid: seq<byte>, elements: seq<Element>)
    decreases elements
  {
    elements != [] && (InValue(uuid, elements[0]) || InSome(uuid, elements[1..]))
  }

  predicate HasUuid(attributes: seq<Attribute>, uuid: seq<byte>) {
    exists i :: 0 <= i < |attributes| && InValue(uuid, attributes[i].value)
  }

  // A record matches when any one of the UUIDs is in any of its values.
  predicate Matches(attributes: seq<Attribute>, uuids: seq<seq<byte>>) {
    exists i :: 0 <= i < |uuids| && HasUuid(attributes, uuids[i])
  }

  function Items(e: Element): seq<Element> { if e.Sequence? then e.elements else [] }

  function Uuids(elements: seq<Element>): seq<seq<byte>> {
    if elements == [] then [] else (if elements[0].Uuid? then [elements[0].uuid] else []) + Uuids(elements[1..])
  }

  function Matching(records: seq<Record>, uuids: seq<seq<byte>>): seq<Record> {
    if records == [] then []
    else (if Matches(records[0].attributes, uuids) then [records[0]] else []) + Matching(records[1..], uuids)
  }

  // The inclusive range of ids a selector asks for; a four-byte selector is a range, any other a single id.
  function Range(value: nat, size: byte): (u16, u16) {
    if size == 4 then (value / 0x1_0000 % 0x1_0000, value % 0x1_0000) else (value % 0x1_0000, value % 0x1_0000)
  }

  function InRange(attributes: seq<Attribute>, start: u16, end: u16): seq<Attribute> {
    if attributes == [] then []
    else (if start <= attributes[0].id <= end then [attributes[0]] else []) + InRange(attributes[1..], start, end)
  }

  // Selector by selector, in the selectors' order.
  function Selected(attributes: seq<Attribute>, selectors: seq<Element>): seq<Attribute> {
    if selectors == [] then []
    else
      (if selectors[0].Unsigned? then
         var (start, end) := Range(selectors[0].value, selectors[0].size);
         InRange(attributes, start, end)
       else [])
      + Selected(attributes, selectors[1..])
  }

  // After everything with the same id or a smaller one.
  function Insert(sorted: seq<Attribute>, a: Attribute): seq<Attribute> {
    if sorted == [] || sorted[|sorted| - 1].id <= a.id then sorted + [a]
    else Insert(sorted[..|sorted| - 1], a) + [sorted[|sorted| - 1]]
  }

  function SortById(attributes: seq<Attribute>): seq<Attribute> {
    if attributes == [] then [] else Insert(SortById(attributes[..|attributes| - 1]), attributes[|attributes| - 1])
  }

  // The alternating ids and values of a record.
  function ListElements(attributes: seq<Attribute>): (r: seq<Element>)
    ensures |r| == 2 * |attributes|
  {
    if attributes == [] then []
    else [Unsigned(attributes[0].id, 2), attributes[0].value] + ListElements(attributes[1..])
  }

  function Chosen(attributes: seq<Attribute>, ids: Element): seq<Attribute> {
    SortById(Selected(attributes, Items(ids)))
  }

  // The non-empty lists of the matching records, in the records' order.
  function Lists(records: seq<Record>, ids: Element): seq<seq<Attribute>> {
    if records == [] then []
    else
      var list := Chosen(records[0].attributes, ids);
      (if list != [] then [list] else []) + Lists(records[1..], ids)
  }

  function ListElement(attributes: seq<Attribute>): Element { Sequence(ListElements(attributes)) }

  function ListsElement(lists: seq<seq<Attribute>>): Element {
    Sequence(seq(|lists|, i requires 0 <= i < |lists| => ListElement(lists[i])))
  }

  // ---------------------------------------------------------------------------
  // The sort is the stable sort by id, whichever algorithm does it
  // ---------------------------------------------------------------------------

  predicate SortedById(attributes: seq<Attribute>) {
    forall i, j :: 0 <= i < j < |attributes| ==> attributes[i].id <= attributes[j].id
  }

  function OfId(attributes: seq<Attribute>, id: u16): seq<Attribute> {
    if attributes == [] then []
    else (if attributes[0].id == id then [attributes[0]] else []) + OfId(attributes[1..], id)
  }

  lemma {:induction false} OfIdAppend(a: seq<Attribute>, b: seq<Attribute>, id: u16)
    ensures OfId(a + b, id) == OfId(a, id) + OfId(b, id)
  {
    if a == [] {
      assert a + b == b;
    } else {
      var whole, head := a + b, if a[0].id == id then [a[0]] else [];
      assert whole[0] == a[0] && whole[1..] == a[1..] + b;
      OfIdAppend(a[1..], b, id);
      assert head + (OfId(a[1..], id) + OfId(b, id)) == head + OfId(a[1..], id) + OfId(b, id);
    }
  }

  lemma {:induction false} OfIdAbove(attributes: seq<Attribute>, id: u16)
    requires forall i :: 0 <= i < |attributes| ==> attributes[i].id != id
    ensures OfId(attributes, id) == []
  {
    if attributes != [] { OfIdAbove(attributes[1..], id); }
  }

  lemma OfIdOne(a: Attribute, id: u16)
    ensures OfId([a], id) == if a.id == id then [a] else []
  {
    assert [a][1..] == [];
  }

  // Every id is at most `id`.
  predicate AtMost(attributes: seq<Attribute>, id: u16) { forall i :: 0 <= i < |attributes| ==> attributes[i].id <= id }

  lemma {:induction false} InsertKeepsOrder(sorted: seq<Attribute>, a: Attribute, bound: u16)
    requires SortedById(sorted) && AtMost(sorted, bound) && a.id <= bound
    ensures SortedById(Insert(sorted, a)) && AtMost(Insert(sorted, a), bound)
  {
    if sorted != [] && sorted[|sorted| - 1].id > a.id {
      InsertKeepsOrder(sorted[..|sorted| - 1], a, sorted[|sorted| - 1].id);
    }
  }

  lemma {:induction false} InsertIsStable(sorted: seq<Attribute>, a: Attribute, id: u16)
    ensures OfId(Insert(sorted, a), id) == OfId(sorted, id) + OfId([a], id)
  {
    hide OfId;
    if sorted == [] || sorted[|sorted| - 1].id <= a.id {
      OfIdAppend(sorted, [a], id);
    } else {
      var front, last := sorted[..|sorted| - 1], sorted[|sorted| - 1];
      InsertIsStable(front, a, id);
      OfIdAppend(Insert(front, a), [last], id);
      OfIdAppend(front, [last], id);
      OfIdOne(a, id);
      OfIdOne(last, id);
      assert front + [last] == sorted;
      Exchange(OfId(front, id), OfId([a], id), OfId([last], id));
    }
  }

  lemma Exchange(a: seq<Attribute>, b: seq<Attribute>, c: seq<Attribute>)
    ensures b == [] || c == [] ==> a + b + c == a + c + b
  {
  }

  /** Sorted by id, and within an id in the original order. */
  lemma {:induction false} SortIsStable(attributes: seq<Attribute>, id: u16)
    ensures SortedById(SortById(attributes)) && OfId(SortById(attributes), id) == OfId(attributes, id)
  {
    if attributes != [] {
      var front, last := attributes[..|attributes| - 1], attributes[|attributes| - 1];
      SortIsStable(front, id);
      InsertIsStable(SortById(front), last, id);
      InsertKeepsOrder(SortById(front), last, 0xFFFF);
      OfIdAppend(front, [last], id);
      assert front + [last] == attributes;
    }
  }

  /** There is only one such list. */
  lemma {:induction false} StableSortIsUnique(a: seq<Attribute>, b: seq<Attribute>)
    requires SortedById(a) && SortedById(b) && forall id: u16 :: OfId(a, id) == OfId(b, id)
    ensures a == b
    decreases |a|
  {
    if a == [] {
      if b != [] { SplitFirst(b, b[0].id); }
    } else {
      assert OfId(a, a[0].id) == OfId(b, a[0].id);
      assert OfId([], a[0].id) == [] && b != [];
      assert OfId(a, b[0].id) == OfId(b, b[0].id);
      LowestFirst(a, b[0].id);
      LowestFirst(b, a[0].id);
      SplitFirst(a, a[0].id);
      SplitFirst(b, b[0].id);
      assert a[0] == b[0];
      forall id: u16 ensures OfId(a[1..], id) == OfId(b[1..], id) {
        assert OfId(a, id) == OfId(b, id);
        SplitFirst(a, id);
        SplitFirst(b, id);
      }
      StableSortIsUnique(a[1..], b[1..]);
      assert a == [a[0]] + a[1..] && b == [b[0]] + b[1..];
    }
  }

  lemma SplitFirst(a: seq<Attribute>, id: u16)
    requires a != []
    ensures a[0].id == id ==> OfId(a, id) != [] && OfId(a, id)[0] == a[0] && OfId(a, id)[1..] == OfId(a[1..], id)
    ensures a[0].id != id ==> OfId(a, id) == OfId(a[1..], id)
  {
  }

  lemma LowestFirst(a: seq<Attribute>, id: u16)
    requires a != [] && SortedById(a) && OfId(a, id) != []
    ensures a[0].id <= id
  {
    if a[0].id > id { OfIdAbove(a, id); }
  }

  // ---------------------------------------------------------------------------
  // Answering
  // ---------------------------------------------------------------------------

  // An answer that cannot be encoded is answered as an empty one.
  function Serialized(e: Element): seq<byte> { if Encode(e).Success? then Encode(e).value else [] }

  function ByteCap(mtu: u16, requested: u16): nat { Min(Max(mtu - 9, 0), requested) }

  function HandleCap(mtu: u16): nat { Max(mtu - 11, 0) / 4 }

  // A continuation is only good while an answer is being drained, and only as the server wrote it.
  predicate BadContinuation(s: Server, continuation: seq<byte>) {
    |continuation| > 1 && (s.current.None? || continuation != MORE)
  }

  // The next slice of a byte answer and what then remains.
  function NextBytes(current: Option<Current>, cap: nat): (Option<Current>, seq<byte>, seq<byte>) {
    if current.None? || !current.value.Data? then (current, [], END)
    else
      var data := current.value.data;
      if |data| > cap then (Some(Data(data[cap..])), data[..cap], MORE) else (None, data, END)
  }

  function NotThere(transaction: u16): Pdu { ErrorResponse(transaction, 0x0002) }

  function BadState(transaction: u16): Pdu { ErrorResponse(transaction, 0x0005) }

  function OnSearchAttribute(s: Server, transaction: u16, pattern: Element, maximum: u16, ids: Element,
                             continuation: seq<byte>)
    : (Server, Pdu)
  {
    if BadContinuation(s, continuation) then (s, BadState(transaction))
    else
      var current :=
        if |continuation| > 1 then s.current
        else Some(Data(Serialized(ListsElement(Lists(Matching(s.records, Uuids(Items(pattern))), ids)))));
      var (after, slice, state) := NextBytes(current, ByteCap(s.mtu, maximum));
      (s.(current := after), SearchAttributeResponse(transaction, slice, state))
  }

  function Find(records: seq<Record>, handle: u32): Option<Record> {
    if records == [] then None else if records[0].handle == handle then Some(records[0]) else Find(records[1..], handle)
  }

  function OnAttribute(s: Server, transaction: u16, handle: u32, maximum: u16, ids: Element,
                       continuation: seq<byte>): (Server, Pdu) {
    if BadContinuation(s, continuation) then (s, BadState(transaction))
    else
      var record := Find(s.records, handle);
      if |continuation| <= 1 && record.None? then (s.(current := None), NotThere(transaction))
      else
        var current :=
          if |continuation| > 1 then s.current
          else Some(Data(Serialized(ListElement(Chosen(record.value.attributes, ids)))));
        var (after, slice, state) := NextBytes(current, ByteCap(s.mtu, maximum));
        (s.(current := after), AttributeResponse(transaction, slice, state))
  }

  function HandlesOf(records: seq<Record>): seq<u32> {
    seq(|records|, i requires 0 <= i < |records| => records[i].handle)
  }

  function OnSearch(s: Server, transaction: u16, pattern: Element, maximum: u16,
                    continuation: seq<byte>): (Server, Pdu) {
    if BadContinuation(s, continuation) then (s, BadState(transaction))
    else
      var handles := HandlesOf(Matching(s.records, Uuids(Items(pattern))));
      var current :=
        if |continuation| > 1 then s.current
        else Some(Remaining(|handles| % 0x1_0000, handles[..Min(maximum, |handles|)]));
      if current.None? || !current.value.Remaining? then (s.(current := current), BadState(transaction))
      else
        var left := current.value.handles;
        var n := Min(HandleCap(s.mtu), |left|);
        (s.(current := Some(current.value.(handles := left[n..]))),
         SearchResponse(transaction, current.value.total, left[..n], if n == |left| then END else MORE))
  }

  function Handle(s: Server, request: Pdu): (Server, Pdu) {
    match request
    case SearchAttributeRequest(transaction, pattern, maximum, ids, continuation) =>
      OnSearchAttribute(s, transaction, pattern, maximum, ids, continuation)
    case AttributeRequest(transaction, handle, maximum, ids, continuation) =>
      OnAttribute(s, transaction, handle, maximum, ids, continuation)
    case SearchRequest(transaction, pattern, maximum, continuation) =>
      OnSearch(s, transaction, pattern, maximum, continuation)
    case _ => (s, ErrorResponse(request.transaction, 0x0003))
  }

  // ---------------------------------------------------------------------------
  // Every answer fits
  // ---------------------------------------------------------------------------

  /** No response to any request is longer than the MTU; L2CAP lets no channel have one under 48. */
  lemma ResponseFits(s: Server, request: Pdu)
    requires s.mtu >= 11
    ensures var response := EncodePdu(Handle(s, request).1);
            response.Success? && |response.value| <= s.mtu
  {
    hide Lists, Matching, Uuids, Encode, Find, HandlesOf, Handles, ToBe;
    match request
    case SearchAttributeRequest(_, _, _, _, _) =>
    case AttributeRequest(_, _, _, _, _) =>
    case SearchRequest(_, _, _, _) =>
    case _ =>
  }

  // ---------------------------------------------------------------------------
  // Continuations drain the answer
  // ---------------------------------------------------------------------------

  // The slices of an answer, and how many there are.
  function Slices(data: seq<byte>, cap: nat): seq<seq<byte>>
    requires cap > 0
    decreases |data|
  {
    if |data| <= cap then [data] else [data[..cap]] + Slices(data[cap..], cap)
  }

  function Flatten(parts: seq<seq<byte>>): seq<byte> { if parts == [] then [] else parts[0] + Flatten(parts[1..]) }

  /**
    * Together the slices are the answer, each is within the cap, and there are as many as it takes: one, or ceil(length
    * / cap).
    */
  lemma {:induction false} SlicesDrain(data: seq<byte>, cap: nat)
    requires cap > 0
    ensures var parts := Slices(data, cap);
            && Flatten(parts) == data
            && (forall i :: 0 <= i < |parts| ==> |parts[i]| <= cap)
            && 1 <= |parts| && |data| <= |parts| * cap && (|parts| > 1 ==> (|parts| - 1) * cap < |data|)
    decreases |data|
  {
    var parts := Slices(data, cap);
    if |data| <= cap {
      assert parts[1..] == [] && Flatten([]) == [];
    } else {
      SlicesDrain(data[cap..], cap);
      var rest := Slices(data[cap..], cap);
      assert parts[1..] == rest && data == data[..cap] + data[cap..];
      assert (|rest| + 1) * cap == |rest| * cap + cap && |rest| * cap == (|rest| - 1) * cap + cap;
    }
  }

  // The request, asking for more.
  function Continuing(request: Pdu): Pdu {
    match request
    case SearchAttributeRequest(transaction, pattern, maximum, ids, _) =>
      SearchAttributeRequest(transaction, pattern, maximum, ids, MORE)
    case AttributeRequest(transaction, handle, maximum, ids, _) =>
      AttributeRequest(transaction, handle, maximum, ids, MORE)
    case SearchRequest(transaction, pattern, maximum, _) => SearchRequest(transaction, pattern, maximum, MORE)
    case _ => request
  }

  // What a server answers to the same request, continued as it asks, `n` times.
  function Continued(s: Server, request: Pdu, n: nat): (seq<Pdu>, Server)
    decreases n
  {
    if n == 0 then ([], s)
    else
      var (t, response) := Handle(s, request);
      var (rest, last) := Continued(t, Continuing(request), n - 1);
      ([response] + rest, last)
  }

  function Payloads(responses: seq<Pdu>): seq<seq<byte>> {
    seq(|responses|, i requires 0 <= i < |responses| =>
      if responses[i].SearchAttributeResponse? || responses[i].AttributeResponse? then responses[i].list else [])
  }

  predicate StateIs(response: Pdu, state: seq<byte>) {
    (response.SearchAttributeResponse? || response.AttributeResponse?) && response.continuation == state
  }

  /**
    * From a stored answer on: the continuations carry its slices, one each, and only the last says that it is the last.
    */
  lemma {:induction false} ContinuationsDrain(s: Server, request: Pdu, data: seq<byte>)
    requires request.SearchAttributeRequest? || request.AttributeRequest?
    requires request.continuation == MORE && s.current == Some(Data(data)) && ByteCap(s.mtu, request.maximum) > 0
    ensures var parts := Slices(data, ByteCap(s.mtu, request.maximum));
            var (responses, last) := Continued(s, request, |parts|);
            && Payloads(responses) == parts
            && last.current.None?
            && forall i :: 0 <= i < |responses| ==> StateIs(responses[i], if i == |responses| - 1 then END else MORE)
    decreases |data|
  {
    hide Handle, Payloads, ByteCap;
    var cap := ByteCap(s.mtu, request.maximum);
    var parts := Slices(data, cap);
    var (t, response) := Handle(s, request);
    var (responses, last) := Continued(s, request, |parts|);
    NextSlice(s, request, data);
    if |data| > cap {
      ContinuationsDrain(t, request, data[cap..]);
      var rest := Continued(t, request, |parts| - 1).0;
      PayloadsFirst(response, rest);
      forall i | 0 <= i < |responses| ensures StateIs(responses[i], if i == |responses| - 1 then END else MORE) {
        if i > 0 { assert responses[i] == rest[i - 1]; }
      }
    } else {
      PayloadsFirst(response, []);
      assert [response] + [] == [response] && [data] + Payloads([]) == [data];
    }
  }

  lemma PayloadsFirst(response: Pdu, rest: seq<Pdu>)
    requires response.SearchAttributeResponse? || response.AttributeResponse?
    ensures Payloads([response] + rest) == [response.list] + Payloads(rest) && Payloads([]) == []
  {
  }

  lemma NextSlice(s: Server, request: Pdu, data: seq<byte>)
    requires request.SearchAttributeRequest? || request.AttributeRequest?
    requires request.continuation == MORE && s.current == Some(Data(data))
    ensures var cap := ByteCap(s.mtu, request.maximum);
            var (t, response) := Handle(s, request);
            && Continuing(request) == request
            && StateIs(response, if |data| > cap then MORE else END)
            && response.list == (if |data| > cap then data[..cap] else data)
            && t == s.(current := if |data| > cap then Some(Data(data[cap..])) else None)
  {
    hide Lists, Matching, Uuids, Find, Chosen;
  }

  // The answer a fresh request starts.
  function Answer(s: Server, request: Pdu): Option<seq<byte>> {
    match request
    case SearchAttributeRequest(_, pattern, _, ids, _) =>
      Some(Serialized(ListsElement(Lists(Matching(s.records, Uuids(Items(pattern))), ids))))
    case AttributeRequest(_, handle, _, ids, _) =>
      var record := Find(s.records, handle);
      if record.None? then None else Some(Serialized(ListElement(Chosen(record.value.attributes, ids))))
    case _ => None
  }

  /**
    * A fresh request, whatever was being drained before it, is answered like the first continuation of its own answer.
    */
  lemma FreshIsStored(s: Server, request: Pdu)
    requires request.SearchAttributeRequest? || request.AttributeRequest?
    requires |request.continuation| <= 1 && Answer(s, request).Some?
    ensures Handle(s, request) == Handle(s.(current := Some(Data(Answer(s, request).value))), Continuing(request))
  {
    hide Lists, Matching, Uuids, Find, Chosen, Encode;
  }

  /** A fresh request and its continuations hand out the whole answer, once, in order, and then stop. */
  lemma AnswerDrains(s: Server, request: Pdu)
    requires request.SearchAttributeRequest? || request.AttributeRequest?
    requires |request.continuation| <= 1 && Answer(s, request).Some? && ByteCap(s.mtu, request.maximum) > 0
    ensures var data, cap := Answer(s, request).value, ByteCap(s.mtu, request.maximum);
            var parts := Slices(data, cap);
            var (responses, last) := Continued(s, request, |parts|);
            && Flatten(Payloads(responses)) == data && |responses| == |parts|
            && last.current.None?
            && forall i :: 0 <= i < |responses| ==> StateIs(responses[i], if i == |responses| - 1 then END else MORE)
  {
    var data, cap := Answer(s, request).value, ByteCap(s.mtu, request.maximum);
    var stored := s.(current := Some(Data(data)));
    SlicesDrain(data, cap);
    FreshIsStored(s, request);
    hide Handle, Answer;
    assert Continuing(Continuing(request)) == Continuing(request);
    ContinuationsDrain(stored, Continuing(request), data);
    assert Continued(s, request, |Slices(data, cap)|) == Continued(stored, Continuing(request), |Slices(data, cap)|);
  }
}
