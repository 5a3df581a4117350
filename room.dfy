/**
  The room service's in-memory store and the request handlers that read and
  change it. The store holds two insertion-ordered maps: players by id, and
  submitted data by the composite key `<playerId>_<dataType>`.
 */
module Room {
  import opened Wrappers
  import opened OrderedMap
  import opened Routes

  /** A registered player; both timestamps are taken when the player joins. */
  datatype Player = Player(id: string, name: string, joinedAt: string, lastSeen: string)

  /**
    One submitted datum. The payload is opaque to the store; `None` is a
    request body without a payload field.
   */
  datatype DataEntry<P> = DataEntry(playerId: string, dataType: string, payload: Option<P>, timestamp: string)

  type Players = Entries<string, Player>
  type DataTable<P> = Entries<string, DataEntry<P>>

  /**
    The fields a handler reads from the request body (join, submit) or from
    the query string (data query); `None` is a field that is not there.
   */
  datatype Fields<P> = Fields(
    playerId: Option<string>,
    playerName: Option<string>,
    dataType: Option<string>,
    payload: Option<P>)

  /** The clock values a request sees: two date readings and the process uptime. */
  datatype Clock = Clock(now: string, later: string, uptime: real)

  /** A request as the handlers see it; `path` is the URL path, `url` the whole request target. */
  datatype Request<P> = Request(verb: string, path: string, url: string, body: Fields<P>, query: Fields<P>)

  /** What a handler answers. */
  datatype Reply<P> =
    | Preflighted
    | Joined(playerCount: nat)
    | RoomSnapshot(players: seq<Player>, playerCount: nat, dataCount: nat, timestamp: string)
    | Recreated
    | Submitted(dataKey: string)
    | DataResult(data: DataTable<P>, totalCount: nat)
    | Health(timestamp: string, playerCount: nat, dataCount: nat, uptime: real)
    | BadRequest(error: string)
    | EndpointNotFound(path: string, available: seq<string>)

  /** A reply with its HTTP status and the headers set on it. */
  datatype Response<P> = Response(status: nat, headers: seq<(string, string)>, reply: Reply<P>)

  /** What `getServiceStatus` reports; `port` is the bound port while a server runs. */
  datatype ServiceStatus = ServiceStatus(isRunning: bool, port: Option<nat>, playerCount: nat, dataCount: nat)

  /**
    What a call of `getServiceStatus` ends in: the status object, or the
    TypeError thrown by reading `port` from the null address of a server
    handle that is not listening.
   */
  datatype StatusReport = Reported(status: ServiceStatus) | PortReadThrows

  const MissingPlayerFields := "Missing playerId or playerName"
  const MissingDataFields := "Missing playerId or dataType"

  function StatusCode<P>(r: Reply<P>): nat {
    match r
    case BadRequest(_) => 400
    case EndpointNotFound(_, _) => 404
    case _ => 200
  }

  /** The `success` field of the JSON body. */
  predicate Success<P>(r: Reply<P>) {
    !r.BadRequest? && !r.EndpointNotFound?
  }

  /** The `message` field of the JSON body, where there is one. */
  function Message<P>(r: Reply<P>): Option<string> {
    match r
    case Joined(_) => Some("Joined room successfully")
    case Recreated => Some("Room recreated successfully")
    case Submitted(_) => Some("Data submitted successfully")
    case _ => None
  }

  /** A string field passes the handlers' `!field` test: it is there and not empty. */
  predicate Present(f: Option<string>) {
    f.Some? && f.value != ""
  }

  /** The store key of a datum: player id and data type joined by an underscore. */
  function DataKey(playerId: string, dataType: string): (key: string)
    ensures |key| == |playerId| + 1 + |dataType|
    ensures key[..|playerId|] == playerId && key[|playerId|] == '_' && key[|playerId| + 1..] == dataType
  {
    playerId + "_" + dataType
  }

  /** A player record is stored under its own id, and id and name are non-empty. */
  ghost predicate PlayerStored(e: (string, Player)) {
    e.0 == e.1.id && e.1.id != "" && e.1.name != ""
  }

  /** A datum is stored under its composite key, and both its parts are non-empty. */
  ghost predicate EntryStored<P>(e: (string, DataEntry<P>)) {
    e.0 == DataKey(e.1.playerId, e.1.dataType) && e.1.playerId != "" && e.1.dataType != ""
  }

  /** The entries of `data` that a player submitted, in store order. */
  function ByPlayer<P>(data: DataTable<P>, playerId: string): DataTable<P> {
    if data == [] then []
    else
      var last := data[|data| - 1];
      ByPlayer(data[..|data| - 1], playerId) + (if last.1.playerId == playerId then [last] else [])
  }

  /**
    What a data query returns: with both filters, the one entry under their
    composite key (if any); with only a player id, that player's entries;
    otherwise the whole table.
   */
  function Select<P>(data: DataTable<P>, query: Fields<P>): DataTable<P> {
    if Present(query.playerId) && Present(query.dataType) then
      var key := DataKey(query.playerId.value, query.dataType.value);
      match Get(data, key)
      case None => []
      case Some(e) => [(key, e)]
    else if Present(query.playerId) then
      ByPlayer(data, query.playerId.value)
    else
      data
  }

  /** An entry is selected for a player exactly when it is stored with that player's id. */
  lemma {:induction false} ByPlayerExactly<P>(data: DataTable<P>, playerId: string, e: (string, DataEntry<P>))
    ensures e in ByPlayer(data, playerId) <==> e in data && e.1.playerId == playerId
  {
    if data != [] {
      var init := data[..|data| - 1];
      ByPlayerExactly(init, playerId, e);
      assert data == init + [data[|data| - 1]];
    }
  }

  /** Filtering by player never lengthens the table, and keeps its keys distinct. */
  lemma {:induction false} ByPlayerDistinct<P>(data: DataTable<P>, playerId: string)
    ensures |ByPlayer(data, playerId)| <= |data|
    ensures Distinct(data) ==> Distinct(ByPlayer(data, playerId))
  {
    if data != [] {
      var init := data[..|data| - 1];
      var last := data[|data| - 1];
      ByPlayerDistinct(init, playerId);
      if Distinct(data) && last.1.playerId == playerId {
        var r := ByPlayer(init, playerId);
        forall j | 0 <= j < |r| ensures r[j].0 != last.0 {
          ByPlayerExactly(init, playerId, r[j]);
          var k :| 0 <= k < |init| && init[k] == r[j];
          assert data[k] == init[k];
        }
      }
    }
  }

  /**
    With both filters present, a query returns at most one entry: the one
    stored under their composite key, unchanged.
   */
  lemma SelectExact<P>(data: DataTable<P>, query: Fields<P>)
    requires Present(query.playerId) && Present(query.dataType)
    ensures var key := DataKey(query.playerId.value, query.dataType.value);
      && |Select(data, query)| <= 1
      && (|Select(data, query)| == 1 <==> Has(data, key))
      && (Has(data, key) ==> Select(data, query) == [(key, Get(data, key).value)])
  {
  }

  /** With only a player id, a query returns exactly the entries stored with that id. */
  lemma SelectByPlayer<P>(data: DataTable<P>, query: Fields<P>, e: (string, DataEntry<P>))
    requires Present(query.playerId) && !Present(query.dataType)
    ensures e in Select(data, query) <==> e in data && e.1.playerId == query.playerId.value
  {
    ByPlayerExactly(data, query.playerId.value, e);
  }

  /** Without a player id, a query returns the whole table, whatever the data type. */
  lemma SelectAll<P>(data: DataTable<P>, query: Fields<P>)
    requires !Present(query.playerId)
    ensures Select(data, query) == data
  {
  }

  /**
    Submitting and then querying the same pair returns exactly the submitted
    datum, whatever the table held before under that key.
   */
  lemma SubmitThenQuery<P>(data: DataTable<P>, playerId: string, dataType: string, e: DataEntry<P>)
    requires playerId != "" && dataType != ""
    ensures Select(Set(data, DataKey(playerId, dataType), e),
                   Fields(Some(playerId), None, Some(dataType), None))
            == [(DataKey(playerId, dataType), e)]
  {
    SetGetSame(data, DataKey(playerId, dataType), e);
  }

  /** Different pairs can share a key: an underscore may move between the parts. */
  lemma KeysCollide(playerId: string, middle: string, dataType: string)
    ensures DataKey(playerId + "_" + middle, dataType) == DataKey(playerId, middle + "_" + dataType)
  {
  }

  /** When neither player id contains an underscore, equal keys mean equal pairs. */
  lemma KeyDeterminesPairWithoutUnderscore(p1: string, t1: string, p2: string, t2: string)
    requires '_' !in p1 && '_' !in p2
    requires DataKey(p1, t1) == DataKey(p2, t2)
    ensures p1 == p2 && t1 == t2
  {
  }

  /**
    The room store: `roomState.players` and `roomState.data`, two maps the
    handlers change in place.
   */
  class RoomStore<P> {
    var players: Players
    var data: DataTable<P>

    /** Keys are unique, and every record sits under the key it was stored with. */
    ghost predicate Valid()
      reads this
    {
      && Distinct(players) && Distinct(data)
      && (forall i :: 0 <= i < |players| ==> PlayerStored(players[i]))
      && (forall i :: 0 <= i < |data| ==> EntryStored(data[i]))
    }

    /** The store as the module creates it: two empty maps. */
    constructor ()
      ensures Valid() && players == [] && data == []
    {
      players := [];
      data := [];
    }

    /**
      Join: a request without a player id or name is refused and changes
      nothing; otherwise the player is set under its id (replacing an
      earlier record in place) and the reply reports the new player count.
     */
    method Join(body: Fields<P>, clock: Clock) returns (reply: Reply<P>)
      requires Valid()
      modifies this
      ensures Valid() && data == old(data)
      ensures !(Present(body.playerId) && Present(body.playerName)) ==>
        reply == BadRequest(MissingPlayerFields) && players == old(players)
      ensures Present(body.playerId) && Present(body.playerName) ==>
        var id := body.playerId.value;
        var p := Player(id, body.playerName.value, clock.now, clock.later);
        && players == Set(old(players), id, p)
        && Get(players, id) == Some(p)
        && (forall other :: other != id ==> Get(players, other) == Get(old(players), other))
        && |players| == (if Has(old(players), id) then |old(players)| else |old(players)| + 1)
        && reply == Joined(|players|)
        && Message(reply) == Some("Joined room successfully")
    {
      if !Present(body.playerId) || !Present(body.playerName) {
        return BadRequest(MissingPlayerFields);
      }
      var id := body.playerId.value;
      var p := Player(id, body.playerName.value, clock.now, clock.later);
      ghost var before := players;
      players := Set(players, id, p);
      SetDistinct(before, id, p);
      SetGetSame(before, id, p);
      SetKeys(before, id, p);
      forall other | other != id ensures Get(players, other) == Get(before, other) {
        SetGetOther(before, id, p, other);
      }
      reply := Joined(|players|);
    }

    /** Query room: the players in first-join order, and both counts. */
    method QueryRoom(clock: Clock) returns (reply: Reply<P>)
      requires Valid()
      ensures reply.RoomSnapshot? && reply.timestamp == clock.now
      ensures |reply.players| == reply.playerCount == |players|
      ensures forall i :: 0 <= i < |players| ==> reply.players[i] == players[i].1
      ensures reply.dataCount == |data|
    {
      var list := Values(players);
      reply := RoomSnapshot(list, |list|, |data|, clock.now);
    }

    /** Recreate: both maps are emptied. */
    method Recreate() returns (reply: Reply<P>)
      requires Valid()
      modifies this
      ensures Valid() && players == [] && data == []
      ensures reply == Recreated && Message(reply) == Some("Room recreated successfully")
    {
      players := [];
      data := [];
      reply := Recreated;
    }

    /**
      Submit: a request without a player id or data type is refused and
      changes nothing; otherwise the datum is set under its composite key,
      overwriting what was stored there (last write wins), and the reply
      carries that key.
     */
    method Submit(body: Fields<P>, clock: Clock) returns (reply: Reply<P>)
      requires Valid()
      modifies this
      ensures Valid() && players == old(players)
      ensures !(Present(body.playerId) && Present(body.dataType)) ==>
        reply == BadRequest(MissingDataFields) && data == old(data)
      ensures Present(body.playerId) && Present(body.dataType) ==>
        var key := DataKey(body.playerId.value, body.dataType.value);
        var e := DataEntry(body.playerId.value, body.dataType.value, body.payload, clock.now);
        && data == Set(old(data), key, e)
        && Get(data, key) == Some(e)
        && (forall other :: other != key ==> Get(data, other) == Get(old(data), other))
        && |data| == (if Has(old(data), key) then |old(data)| else |old(data)| + 1)
        && reply == Submitted(key)
        && Message(reply) == Some("Data submitted successfully")
    {
      if !Present(body.playerId) || !Present(body.dataType) {
        return BadRequest(MissingDataFields);
      }
      var key := DataKey(body.playerId.value, body.dataType.value);
      var e := DataEntry(body.playerId.value, body.dataType.value, body.payload, clock.now);
      ghost var before := data;
      data := Set(data, key, e);
      SetDistinct(before, key, e);
      SetGetSame(before, key, e);
      SetKeys(before, key, e);
      forall other | other != key ensures Get(data, other) == Get(before, other) {
        SetGetOther(before, key, e, other);
      }
      reply := Submitted(key);
    }

    /**
      Query data: builds the result by setting the selected entries one by
      one into a fresh map; `totalCount` is the number of keys it ends with.
     */
    method QueryData(query: Fields<P>) returns (reply: Reply<P>)
      requires Valid()
      ensures reply == DataResult(Select(data, query), |Select(data, query)|)
    {
      var result: DataTable<P> := [];
      if Present(query.playerId) && Present(query.dataType) {
        var key := DataKey(query.playerId.value, query.dataType.value);
        var found := Get(data, key);
        if found.Some? {
          result := [(key, found.value)];
        }
      } else if Present(query.playerId) {
        var playerId := query.playerId.value;
        var i := 0;
        while i < |data|
          invariant 0 <= i <= |data|
          invariant result == ByPlayer(data[..i], playerId)
        {
          var (key, value) := data[i];
          assert data[..i + 1][..i] == data[..i];
          if value.playerId == playerId {
            forall j | 0 <= j < |result| ensures result[j].0 != key {
              ByPlayerExactly(data[..i], playerId, result[j]);
            }
            SetFresh(result, key, value);
            result := Set(result, key, value);
          }
          i := i + 1;
        }
        assert data[..|data|] == data;
      } else {
        var i := 0;
        while i < |data|
          invariant 0 <= i <= |data|
          invariant result == data[..i]
        {
          var (key, value) := data[i];
          SetFresh(result, key, value);
          result := Set(result, key, value);
          i := i + 1;
        }
      }
      reply := DataResult(result, |result|);
    }

    /** Health check: status OK with both counts and the uptime. */
    method HealthCheck(clock: Clock) returns (reply: Reply<P>)
      ensures reply == Health(clock.now, |players|, |data|, clock.uptime)
    {
      reply := Health(clock.now, |players|, |data|, clock.uptime);
    }

    /**
      Service status, given the module's `server` variable: `None` before any
      start and after a stop, `Some(None)` for a handle that is not
      listening, `Some(Some(p))` for a handle listening on `p`. Reading the
      port of a handle without an address throws.
     */
    method GetServiceStatus(server: Option<Option<nat>>) returns (report: StatusReport)
      ensures report.PortReadThrows? <==> server == Some(None)
      ensures report.Reported? ==> (report.status.isRunning <==> server.Some?)
      ensures report.Reported? ==> report.status.port == (if server.Some? then server.value else None)
      ensures report.Reported? ==> report.status.playerCount == |players| && report.status.dataCount == |data|
    {
      match server {
        case None =>
          report := Reported(ServiceStatus(false, None, |players|, |data|));
        case Some(address) =>
          if address.None? {
            return PortReadThrows;
          }
          report := Reported(ServiceStatus(true, address, |players|, |data|));
      }
    }

    /**
      One request through the service: OPTIONS is answered before routing,
      a matched route runs its handler, anything else gets the 404 listing.
      Every response that reaches the CORS middleware carries its headers;
      each routed request gets its handler's reply and state change, and
      only a join or a submit that passes validation, or a recreate, changes
      the store.
     */
    method Handle(req: Request<P>, clock: Clock) returns (resp: Response<P>)
      requires Valid()
      modifies this
      ensures Valid()
      ensures resp.headers == CorsHeaders && resp.status == StatusCode(resp.reply)
      ensures Success(resp.reply) <==> resp.status == 200
      ensures Message(resp.reply).Some? ==>
        resp.status == 200 && Route(req.verb, req.path) in {JoinRoom, RecreateRoom, SubmitData}
      ensures Route(req.verb, req.path) !in {JoinRoom, RecreateRoom, SubmitData} ==>
        players == old(players) && data == old(data)
      ensures Route(req.verb, req.path) == Preflight ==> resp.reply == Preflighted
      ensures Route(req.verb, req.path) == JoinRoom ==>
        && data == old(data)
        && (!(Present(req.body.playerId) && Present(req.body.playerName)) ==>
              resp.reply == BadRequest(MissingPlayerFields) && players == old(players))
        && (Present(req.body.playerId) && Present(req.body.playerName) ==>
              && players == Set(old(players), req.body.playerId.value,
                                Player(req.body.playerId.value, req.body.playerName.value, clock.now, clock.later))
              && resp.reply == Joined(|players|))
      ensures Route(req.verb, req.path) == Endpoint.QueryRoom ==>
        resp.reply == RoomSnapshot(Values(players), |players|, |data|, clock.now)
      ensures Route(req.verb, req.path) == RecreateRoom ==>
        players == [] && data == [] && resp.reply == Recreated
      ensures Route(req.verb, req.path) == SubmitData ==>
        && players == old(players)
        && (!(Present(req.body.playerId) && Present(req.body.dataType)) ==>
              resp.reply == BadRequest(MissingDataFields) && data == old(data))
        && (Present(req.body.playerId) && Present(req.body.dataType) ==>
              var key := DataKey(req.body.playerId.value, req.body.dataType.value);
              && data == Set(old(data), key,
                             DataEntry(req.body.playerId.value, req.body.dataType.value, req.body.payload, clock.now))
              && resp.reply == Submitted(key))
      ensures Route(req.verb, req.path) == Endpoint.QueryData ==>
        resp.reply == DataResult(Select(data, req.query), |Select(data, req.query)|)
      ensures Route(req.verb, req.path) == Endpoint.HealthCheck ==>
        resp.reply == Health(clock.now, |players|, |data|, clock.uptime)
      ensures Route(req.verb, req.path) == NotFound ==> resp.reply == EndpointNotFound(req.url, Available())
    {
      var reply: Reply<P>;
      match Route(req.verb, req.path) {
        case Preflight => reply := Preflighted;
        case JoinRoom => reply := Join(req.body, clock);
        case QueryRoom =>
          reply := QueryRoom(clock);
          assert reply.players == Values(players);
        case RecreateRoom => reply := Recreate();
        case SubmitData => reply := Submit(req.body, clock);
        case QueryData => reply := QueryData(req.query);
        case HealthCheck => reply := HealthCheck(clock);
        case NotFound => reply := EndpointNotFound(req.url, Available());
      }
      resp := Response(StatusCode(reply), CorsHeaders, reply);
    }
  }
}
