/** The SDP server and client as the mutable objects they are, proved against modules SdpService and SdpQuery. */
module SdpRuntime {
  import opened Bytes
  import opened SdpElement
  import opened SdpPdu
  import opened SdpService
  import opened SdpQuery

  lemma MatchingNext(records: seq<Record>, uuids: seq<seq<byte>>, i: nat, r: seq<Record>)
    requires i < |records|
    ensures var more := if Matches(records[i].attributes, uuids) then [records[i]] else [];
            r + Matching(records[i..], uuids) == r + more + Matching(records[i + 1..], uuids)
    ensures r + [] == r
  {
    hide Matches;
    var tail := records[i..];
    assert tail[0] == records[i] && tail[1..] == records[i + 1..];
    var more := if Matches(records[i].attributes, uuids) then [records[i]] else [];
    assert r + (more + Matching(records[i + 1..], uuids)) == r + more + Matching(records[i + 1..], uuids);
  }

  lemma ListsAt(matching: seq<Record>, ids: Element, i: nat)
    requires i < |matching|
    ensures var list, rest := Chosen(matching[i].attributes, ids), Lists(matching[i + 1..], ids);
            Lists(matching[i..], ids) == if list != [] then [list] + rest else rest
  {
    hide Chosen;
    assert matching[i..][0] == matching[i] && matching[i..][1..] == matching[i + 1..];
  }

  lemma ListsOfNone(matching: seq<Record>, ids: Element)
    ensures Lists(matching[|matching|..], ids) == []
  {
    assert matching[|matching|..] == [];
  }

  lemma ListJoins(r: seq<seq<Attribute>>, list: seq<Attribute>, rest: seq<seq<Attribute>>)
    ensures r + ([list] + rest) == r + [list] + rest
  {
  }

  class SdpServer {
    var records: seq<Record>
    var current: Option<Current>
    const mtu: u16

    ghost function View(): Server
      reads this
    {
      Server(records, current, mtu)
    }

    constructor (size: u16)
      ensures View() == Server([], None, size)
    {
      records, current, mtu := [], None, size;
    }

    method AddService(handle: u32, attributes: seq<Attribute>)
      modifies this
      ensures View() == old(View()).(records := old(records) + [Record(handle, attributes)])
    {
      records := records + [Record(handle, attributes)];
    }

    // The records that have any of the pattern's UUIDs, in their order.
    method MatchServices(pattern: Element) returns (r: seq<Record>)
      ensures r == Matching(records, Uuids(Items(pattern)))
    {
      hide Matches, Uuids;
      var uuids := Uuids(Items(pattern));
      r := [];
      var i := 0;
      while i < |records|
        invariant 0 <= i <= |records|
        invariant r + Matching(records[i..], uuids) == Matching(records, uuids)
      {
        var found := AnyMatches(records[i].attributes, uuids);
        MatchingNext(records, uuids, i, r);
        if found { r := r + [records[i]]; }
        i := i + 1;
      }
    }

    method AnyMatches(attributes: seq<Attribute>, uuids: seq<seq<byte>>) returns (found: bool)
      ensures found == Matches(attributes, uuids)
    {
      hide HasUuid;
      var i := 0;
      while i < |uuids|
        invariant 0 <= i <= |uuids|
        invariant forall j :: 0 <= j < i ==> !HasUuid(attributes, uuids[j])
      {
        if HasUuid(attributes, uuids[i]) { return true; }
        i := i + 1;
      }
      found := false;
    }

    // The attributes the selectors choose, selector by selector, then sorted by id.
    method Choose(attributes: seq<Attribute>, ids: Element) returns (r: seq<Attribute>)
      ensures r == Chosen(attributes, ids)
    {
      hide InRange, SortById;
      var selectors := Items(ids);
      var selected: seq<Attribute> := [];
      var i := 0;
      while i < |selectors|
        invariant 0 <= i <= |selectors|
        invariant selected + Selected(attributes, selectors[i..]) == Selected(attributes, selectors)
      {
        var e := selectors[i];
        assert selectors[i..][0] == e && selectors[i..][1..] == selectors[i + 1..];
        if e.Unsigned? {
          var (start, end) := Range(e.value, e.size);
          var found := InRange(attributes, start, end);
          ghost var rest := Selected(attributes, selectors[i + 1..]);
          assert selected + (found + rest) == selected + found + rest;
          selected := selected + found;
        } else {
          assert [] + Selected(attributes, selectors[i + 1..]) == Selected(attributes, selectors[i + 1..]);
        }
        i := i + 1;
      }
      assert selected + [] == selected;
      r := SortById(selected);
    }

    // The non-empty lists of the matching records.
    method CollectLists(matching: seq<Record>, ids: Element) returns (r: seq<seq<Attribute>>)
      ensures r == Lists(matching, ids)
    {
      hide Chosen, Lists;
      r := [];
      var i := 0;
      assert matching[0..] == matching;
      while i < |matching|
        invariant 0 <= i <= |matching|
        invariant r + Lists(matching[i..], ids) == Lists(matching, ids)
      {
        ListsAt(matching, ids, i);
        var list := Choose(matching[i].attributes, ids);
        if list != [] {
          ListJoins(r, list, Lists(matching[i + 1..], ids));
          r := r + [list];
        }
        i := i + 1;
      }
      ListsOfNone(matching, ids);
    }

    // The next slice of the answer being drained.
    method NextPayload(cap: nat) returns (slice: seq<byte>, state: seq<byte>)
      modifies this
      ensures (current, slice, state) == NextBytes(old(current), cap) && records == old(records)
    {
      if current.None? || !current.value.Data? { return [], END; }
      var data := current.value.data;
      current := None;
      if |data| > cap {
        current := Some(Data(data[cap..]));
        return data[..cap], MORE;
      }
      slice, state := data, END;
    }

    method OnSearchAttribute(transaction: u16, pattern: Element, maximum: u16, ids: Element, continuation: seq<byte>)
      returns (r: Pdu)
      modifies this
      ensures (View(), r) == SdpService.OnSearchAttribute(old(View()), transaction, pattern, maximum, ids, continuation)
    {
      hide Lists, Matching, Encode, Uuids;
      if |continuation| > 1 {
        if current.None? || continuation != MORE { return BadState(transaction); }
      } else {
        var matching := MatchServices(pattern);
        var lists := CollectLists(matching, ids);
        current := Some(Data(Serialized(ListsElement(lists))));
      }
      var slice, state := NextPayload(ByteCap(mtu, maximum));
      r := SearchAttributeResponse(transaction, slice, state);
    }

    method OnAttribute(transaction: u16, handle: u32, maximum: u16, ids: Element, continuation: seq<byte>)
      returns (r: Pdu)
      modifies this
      ensures (View(), r) == SdpService.OnAttribute(old(View()), transaction, handle, maximum, ids, continuation)
    {
      hide Chosen, Encode, Find;
      if |continuation| > 1 {
        if current.None? || continuation != MORE { return BadState(transaction); }
      } else {
        current := None;
        var record := Find(records, handle);
        if record.None? { return NotThere(transaction); }
        var list := Choose(record.value.attributes, ids);
        current := Some(Data(Serialized(ListElement(list))));
      }
      var slice, state := NextPayload(ByteCap(mtu, maximum));
      r := AttributeResponse(transaction, slice, state);
    }

    method OnSearch(transaction: u16, pattern: Element, maximum: u16, continuation: seq<byte>) returns (r: Pdu)
      modifies this
      ensures (View(), r) == SdpService.OnSearch(old(View()), transaction, pattern, maximum, continuation)
    {
      hide Matching, Uuids, HandlesOf;
      if |continuation| > 1 {
        if current.None? || continuation != MORE { return BadState(transaction); }
      } else {
        var matching := MatchServices(pattern);
        var handles := HandlesOf(matching);
        current := Some(Remaining(|handles| % 0x1_0000, handles[..Min(maximum, |handles|)]));
      }
      if !current.value.Remaining? { return BadState(transaction); }
      var total, left := current.value.total, current.value.handles;
      var n := Min(HandleCap(mtu), |left|);
      current := Some(Remaining(total, left[n..]));
      r := SearchResponse(transaction, total, left[..n], if n == |left| then END else MORE);
    }

    method HandleRequest(request: Pdu) returns (r: Pdu)
      modifies this
      ensures (View(), r) == Handle(old(View()), request)
    {
      hide SdpService.OnSearchAttribute, SdpService.OnAttribute, SdpService.OnSearch;
      match request {
        case SearchAttributeRequest(transaction, pattern, maximum, ids, continuation) =>
          r := OnSearchAttribute(transaction, pattern, maximum, ids, continuation);
        case AttributeRequest(transaction, handle, maximum, ids, continuation) =>
          r := OnAttribute(transaction, handle, maximum, ids, continuation);
        case SearchRequest(transaction, pattern, maximum, continuation) =>
          r := OnSearch(transaction, pattern, maximum, continuation);
        case _ => r := ErrorResponse(request.transaction, 0x0003);
      }
    }
  }

  class SdpClient {
    const server: SdpServer
    var nextTransaction: u16

    constructor (transport: SdpServer)
      ensures server == transport && nextTransaction == 0
    {
      server, nextTransaction := transport, 0;
    }

    method MakeTransaction() returns (id: u16)
      modifies this
      ensures id == old(nextTransaction) && nextTransaction == (id + 1) % 0x1_0000
    {
      id := nextTransaction;
      nextTransaction := (nextTransaction + 1) % 0x1_0000;
    }

    // The continuation loop: ask, append, and echo the server's state back until it is terminal.
    method CollectBytes(ask: Ask) returns (r: Result<seq<byte>, ClientError>)
      modifies this, server
      ensures (server.View(), nextTransaction, r)
              == Collect(old(server.View()), old(nextTransaction), ask, END, [], WATCHDOG)
    {
      hide Handle;
      var got: seq<byte>, continuation := [], END;
      var rounds := WATCHDOG;
      while rounds > 0
        invariant Collect(server.View(), nextTransaction, ask, continuation, got, rounds)
               == Collect(old(server.View()), old(nextTransaction), ask, END, [], WATCHDOG)
        decreases rounds
      {
        var transaction := MakeTransaction();
        var response := server.HandleRequest(Request(ask, transaction, continuation));
        if Answers(ask, response) {
          got := got + response.list;
          if response.continuation == END { return Success(got); }
          continuation := response.continuation;
        } else if response.ErrorResponse? {
          return Failure(Protocol(response.code));
        } else {
          return Failure(Unexpected);
        }
        rounds := rounds - 1;
      }
      r := Success(got);
    }

    method ServiceSearchAttribute(uuids: seq<seq<byte>>, selectors: seq<AttributeId>)
      returns (r: Result<seq<seq<Attribute>>, ClientError>)
      modifies this, server
      ensures r == SearchAttribute(old(server.View()), old(nextTransaction), uuids, selectors)
    {
      hide Collect, ParseLists;
      var bytes := CollectBytes(OfMatching(Pattern(uuids), IdList(selectors)));
      if bytes.Failure? { return Failure(bytes.error); }
      r := ParseLists(bytes.value);
    }

    method GetAttributes(handle: u32, selectors: seq<AttributeId>) returns (r: Result<seq<Attribute>, ClientError>)
      modifies this, server
      ensures r == SdpQuery.GetAttributes(old(server.View()), old(nextTransaction), handle, selectors)
    {
      hide Collect, ParseList;
      var bytes := CollectBytes(OfRecord(handle, IdList(selectors)));
      if bytes.Failure? { return Failure(bytes.error); }
      r := ParseList(bytes.value);
    }

    method SearchServices(uuids: seq<seq<byte>>) returns (r: Result<seq<u32>, ClientError>)
      modifies this, server
      ensures r == SdpQuery.SearchServices(old(server.View()), old(nextTransaction), uuids)
    {
      hide Handle;
      var pattern, got: seq<u32>, continuation, rounds := Pattern(uuids), [], END, WATCHDOG;
      while rounds > 0
        invariant CollectHandles(server.View(), nextTransaction, pattern, continuation, got, rounds)
               == SdpQuery.SearchServices(old(server.View()), old(nextTransaction), uuids)
        decreases rounds
      {
        var transaction := MakeTransaction();
        var response := server.HandleRequest(SearchRequest(transaction, pattern, 0xFFFF, continuation));
        if response.SearchResponse? {
          got := got + response.handles;
          if response.continuation == END { return Success(got); }
          continuation := response.continuation;
        } else if response.ErrorResponse? {
          return Failure(Protocol(response.code));
        } else {
          return Failure(Unexpected);
        }
        rounds := rounds - 1;
      }
      r := Success(got);
    }
  }
}
