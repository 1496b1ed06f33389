/**
 * The connection-introspection endpoint: `GET connection_info` answers with
 * one entry per tracked connection, sorted ascending by connection id.
 *
 * The tracker is not part of this model: `Handle` receives the snapshot its
 * `get_all_connections` returned. Timestamp formatting is the parameter
 * `format`, and JSON serialisation of the response is not modelled.
 */
module IntrospectionHandler {
  import opened Types
  import opened Config
  import opened Connection

  /** One entry of the response: what is reported about a connection. */
  datatype ConnectionInfoDTO = ConnectionInfoDTO(
    connectionId: nat,
    creationTime: string,
    serverProtocol: ServerProtocol)

  /** The response body. */
  datatype ConnectionInfoResponse = ConnectionInfoResponse(connections: seq<ConnectionInfoDTO>)

  /** The formatter for creation times (`local_date_time_to_string`). */
  type TimeFormatter = SystemTime -> string

  /** HTTP methods a route can be registered for. */
  datatype HttpMethod = GET | HEAD | POST | PUT | DELETE | OPTIONS | PATCH

  /** The request handlers a route can point to. */
  datatype RequestHandlerKind = ConnectionInfoHandler

  /** A route: method, path suffix and the handler it dispatches to. */
  datatype RouteInfo = RouteInfo(httpMethod: HttpMethod, pathSuffix: string, handler: RequestHandlerKind)

  /**
   * The DTO for a tracked connection: the id and the protocol are copied,
   * and the creation time is formatted.
   */
  function ToDTO(connectionInfo: ConnectionInfo, format: TimeFormatter): (dto: ConnectionInfoDTO)
    ensures dto.connectionId == connectionInfo.connectionId.value
    ensures dto.serverProtocol == connectionInfo.serverProtocol
    ensures dto.creationTime == format(connectionInfo.creationTime)
  {
    ConnectionInfoDTO(
      connectionInfo.connectionId.value,
      format(connectionInfo.creationTime),
      connectionInfo.serverProtocol)
  }

  /** The snapshot mapped entry by entry to DTOs, in snapshot order. */
  function ToDTOs(snapshot: seq<ConnectionInfo>, format: TimeFormatter): seq<ConnectionInfoDTO> {
    seq(|snapshot|, i requires 0 <= i < |snapshot| => ToDTO(snapshot[i], format))
  }

  /** Whether entries appear in ascending order of connection id. */
  predicate SortedById(dtos: seq<ConnectionInfoDTO>) {
    forall i, j :: 0 <= i < j < |dtos| ==> dtos[i].connectionId <= dtos[j].connectionId
  }

  /** Whether no two entries share a connection id. */
  predicate DistinctIds(dtos: seq<ConnectionInfoDTO>) {
    forall i, j :: 0 <= i < j < |dtos| ==> dtos[i].connectionId != dtos[j].connectionId
  }

  /** Exchanges the entries at `j - 1` and `j`. */
  method SwapAdjacent(a: array<ConnectionInfoDTO>, j: int)
    requires 0 < j < a.Length
    modifies a
    ensures a[..] == old(a[..])[j - 1 := old(a[j])][j := old(a[j - 1])]
    ensures multiset(a[..]) == multiset(old(a[..]))
  {
    a[j - 1], a[j] := a[j], a[j - 1];
  }

  /**
   * Moves the entry at `i` leftwards past every entry with a larger id, so that
   * the sorted prefix `a[..i]` grows to the sorted prefix `a[..i + 1]`.
   */
  method InsertIntoSortedPrefix(a: array<ConnectionInfoDTO>, i: int)
    requires 0 <= i < a.Length && SortedById(a[..i])
    modifies a
    ensures SortedById(a[..i + 1])
    ensures a[i + 1..] == old(a[i + 1..])
    ensures multiset(a[..]) == multiset(old(a[..]))
  {
    var j := i;
    while j > 0 && a[j - 1].connectionId > a[j].connectionId
      invariant 0 <= j <= i
      invariant forall k, l :: 0 <= k < l <= i && k != j && l != j ==> a[k].connectionId <= a[l].connectionId
      invariant forall l :: j < l <= i ==> a[j].connectionId < a[l].connectionId
      invariant a[i + 1..] == old(a[i + 1..])
      invariant multiset(a[..]) == multiset(old(a[..]))
    {
      SwapAdjacent(a, j);
      j := j - 1;
    }
  }

  /** Sorts the entries in place, ascending by connection id (`sort_by_key`). */
  method SortByConnectionId(a: array<ConnectionInfoDTO>)
    modifies a
    ensures SortedById(a[..])
    ensures multiset(a[..]) == multiset(old(a[..]))
  {
    for i := 0 to a.Length
      invariant SortedById(a[..i])
      invariant multiset(a[..]) == multiset(old(a[..]))
    {
      InsertIntoSortedPrefix(a, i);
    }
    assert a[..a.Length] == a[..];
  }

  /**
   * Answers `GET connection_info`: one DTO per tracked connection, sorted
   * ascending by connection id, and nothing lost, duplicated or invented.
   */
  method Handle(snapshot: seq<ConnectionInfo>, format: TimeFormatter) returns (response: ConnectionInfoResponse)
    ensures |response.connections| == |snapshot|
    ensures SortedById(response.connections)
    ensures multiset(response.connections) == multiset(ToDTOs(snapshot, format))
  {
    var connections := new ConnectionInfoDTO[|snapshot|](i requires 0 <= i < |snapshot| => ToDTO(snapshot[i], format));
    assert connections[..] == ToDTOs(snapshot, format);
    SortByConnectionId(connections);
    response := ConnectionInfoResponse(connections[..]);
    assert |multiset(response.connections)| == |multiset(ToDTOs(snapshot, format))|;
  }

  /** The routes this handler contributes: `GET connection_info`, once. */
  function CreateRoutes(): (routes: seq<RouteInfo>)
    ensures |routes| == 1
    ensures routes[0].httpMethod == GET && routes[0].pathSuffix == "connection_info"
    ensures routes[0].handler == ConnectionInfoHandler
  {
    [RouteInfo(GET, "connection_info", ConnectionInfoHandler)]
  }

  /**
   * Every entry of a response reports some tracked connection, with its id
   * and protocol, and every tracked connection is reported.
   */
  lemma ResponseReportsExactlyTheSnapshot(snapshot: seq<ConnectionInfo>, format: TimeFormatter,
                                          connections: seq<ConnectionInfoDTO>)
    requires multiset(connections) == multiset(ToDTOs(snapshot, format))
    ensures forall k :: 0 <= k < |connections| ==>
      exists i :: 0 <= i < |snapshot| && connections[k] == ToDTO(snapshot[i], format)
    ensures forall i :: 0 <= i < |snapshot| ==>
      exists k :: 0 <= k < |connections| && connections[k] == ToDTO(snapshot[i], format)
  {
    var dtos := ToDTOs(snapshot, format);
    forall k | 0 <= k < |connections|
      ensures exists i :: 0 <= i < |snapshot| && connections[k] == ToDTO(snapshot[i], format)
    {
      assert connections[k] in multiset(dtos);
      var i :| 0 <= i < |dtos| && dtos[i] == connections[k];
    }
    forall i | 0 <= i < |snapshot|
      ensures exists k :: 0 <= k < |connections| && connections[k] == ToDTO(snapshot[i], format)
    {
      assert dtos[i] in multiset(connections);
      var k :| 0 <= k < |connections| && connections[k] == dtos[i];
    }
  }

  /** Dropping the first entry removes exactly one copy of it. */
  lemma MultisetOfTail(s: seq<ConnectionInfoDTO>)
    requires |s| > 0
    ensures multiset(s[1..]) == multiset(s) - multiset{s[0]}
  {
    assert s == [s[0]] + s[1..];
  }

  /** Two sorted arrangements of the same entries, with distinct ids, start alike. */
  lemma SortedArrangementsShareFirst(a: seq<ConnectionInfoDTO>, b: seq<ConnectionInfoDTO>)
    requires |a| > 0 && DistinctIds(a)
    requires SortedById(a) && SortedById(b)
    requires multiset(a) == multiset(b)
    ensures |b| > 0 && a[0] == b[0]
  {
    assert b[0] in multiset(a) by { assert |b| == |multiset(b)| > 0; }
    var j :| 0 <= j < |a| && a[j] == b[0];
    assert a[0] in multiset(b);
    var k :| 0 <= k < |b| && b[k] == a[0];
    assert b[0].connectionId <= b[k].connectionId;
    assert a[0].connectionId <= a[j].connectionId;
  }

  /**
   * With distinct connection ids (the tracker is keyed by id), there is only
   * one sorted arrangement of a set of entries: the response is determined.
   */
  lemma {:induction false} SortedArrangementIsUnique(a: seq<ConnectionInfoDTO>, b: seq<ConnectionInfoDTO>)
    requires DistinctIds(a)
    requires SortedById(a) && SortedById(b)
    requires multiset(a) == multiset(b)
    ensures a == b
  {
    if |a| == 0 {
      assert |b| == |multiset(b)| == 0;
    } else {
      SortedArrangementsShareFirst(a, b);
      MultisetOfTail(a);
      MultisetOfTail(b);
      SortedArrangementIsUnique(a[1..], b[1..]);
      assert a == [a[0]] + a[1..] && b == [b[0]] + b[1..];
    }
  }

  /** Two connections with ids 3 and 1 are reported in the order 1, 3. */
  lemma ReportsIdsThreeAndOneInOrder(c3: ConnectionInfo, c1: ConnectionInfo, format: TimeFormatter,
                                     connections: seq<ConnectionInfoDTO>)
    requires c3.connectionId.value == 3 && c1.connectionId.value == 1
    requires SortedById(connections) && multiset(connections) == multiset(ToDTOs([c3, c1], format))
    ensures connections == [ToDTO(c1, format), ToDTO(c3, format)]
  {
    var expected := [ToDTO(c1, format), ToDTO(c3, format)];
    assert ToDTOs([c3, c1], format) == [ToDTO(c3, format), ToDTO(c1, format)];
    assert multiset(expected) == multiset(ToDTOs([c3, c1], format));
    SortedArrangementIsUnique(expected, connections);
  }
}
