// The websocket gateway: how a subscribe or unsubscribe payload becomes the
// rooms a client joins or leaves, the per-user room a client joins when it
// connects, and which sockets a message for a user reaches.

module Socket {
  import opened Common

  /** A JavaScript value as it arrives in a payload (numbers are taken to
      be integers). */
  datatype Value =
    | Undefined
    | Null
    | Bool(b: bool)
    | Num(n: int)
    | Str(s: string)
    | Arr(items: seq<Value>)
    | Obj(fields: map<string, Value>)

  /** JavaScript truthiness. */
  predicate Truthy(v: Value)
  {
    match v
    case Undefined => false
    case Null => false
    case Bool(b) => b
    case Num(n) => n != 0
    case Str(s) => s != ""
    case Arr(_) => true
    case Obj(_) => true
  }

  /** A property read `v.name` on a value that is not null or undefined. */
  function Field(v: Value, name: string): Value
  {
    if v.Obj? && name in v.fields then v.fields[name] else Undefined
  }

  /** `${n}` for an integer. */
  function IntText(n: int): (s: string)
    ensures n >= 0 ==> s == Decimal(n)
    ensures n < 0 ==> s == "-" + Decimal(-n)
  {
    if n < 0 then "-" + Decimal(-n) else Decimal(n)
  }

  /** `${v}`: the string a template literal makes of a value. */
  function ToText(v: Value): string
    decreases v
  {
    match v
    case Undefined => "undefined"
    case Null => "null"
    case Bool(b) => if b then "true" else "false"
    case Num(n) => IntText(n)
    case Str(s) => s
    case Arr(items) => JoinTexts(items)
    case Obj(_) => "[object Object]"
  }

  /** `Array.prototype.join(",")`: null and undefined elements print as
      nothing. */
  function JoinTexts(items: seq<Value>): string
    decreases items
  {
    if items == [] then ""
    else
      var last := items[|items| - 1];
      var text := if last.Undefined? || last.Null? then "" else ToText(last);
      if |items| == 1 then text else JoinTexts(items[..|items| - 1]) + "," + text
  }

  // ---------------------------------------------------------------------
  // Room names

  /** `getUserRoom`: `user_` followed by the id as text. */
  function UserRoomOf(id: Value): (room: string)
    ensures |room| >= 5 && room[..5] == "user_"
  {
    "user_" + ToText(id)
  }

  /** The room of a numeric user id. */
  function UserRoom(userId: int): string
  {
    UserRoomOf(Num(userId))
  }

  /** Different positive user ids have different rooms. */
  lemma UserRoomInjective(a: nat, b: nat)
    ensures UserRoom(a) == UserRoom(b) ==> a == b
  {
    if UserRoom(a) == UserRoom(b) {
      assert UserRoom(a)[5..] == Decimal(a);
      assert UserRoom(b)[5..] == Decimal(b);
      DecimalRoundTrip(a);
      DecimalRoundTrip(b);
    }
  }

  /** A user room's name is already lower case. */
  lemma UserRoomIsLowerCase(userId: nat)
    ensures IsLowerCase(UserRoom(userId))
  {
    var d := Decimal(userId);
    assert UserRoom(userId) == "user_" + d;
    assert forall i :: 0 <= i < |d| ==> '0' <= d[i] <= '9';
  }

  // ---------------------------------------------------------------------
  // Subscribe payloads

  /** The rooms a payload names, in the order they are joined or left, and
      whether the handler stopped on an element it cannot lower-case. */
  datatype Parsed = Parsed(rooms: seq<string>, failed: bool)

  /** `forEach(channel => join(channel.toLowerCase()))` over an array:
      every string element in turn, until one that is not a string throws. */
  function StringRooms(items: seq<Value>): (p: Parsed)
    ensures |p.rooms| <= |items|
    ensures forall i :: 0 <= i < |p.rooms| ==> items[i].Str? && p.rooms[i] == Lower(items[i].s)
    ensures !p.failed <==> forall i :: 0 <= i < |items| ==> items[i].Str?
    ensures !p.failed ==> |p.rooms| == |items|
    ensures p.failed ==> |p.rooms| < |items| && !items[|p.rooms|].Str?
  {
    if items == [] then Parsed([], false)
    else if !items[0].Str? then Parsed([], true)
    else
      var rest := StringRooms(items[1..]);
      Parsed([Lower(items[0].s)] + rest.rooms, rest.failed)
  }

  /** `data.params.forEach(param => join(`${data.channel}:${param}`))`. */
  function ParamRooms(channel: string, params: seq<Value>): (rooms: seq<string>)
    ensures |rooms| == |params|
    ensures forall i :: 0 <= i < |params| ==> rooms[i] == Lower(channel + ":" + ToText(params[i]))
  {
    if params == [] then []
    else ParamRooms(channel, params[..|params| - 1]) + [Lower(channel + ":" + ToText(params[|params| - 1]))]
  }

  /** The payload parsing shared by `handleSubscribe` and
      `handleUnSubscribe`. */
  function ParseSubscription(data: Value): (p: Parsed)
    ensures !Truthy(data) ==> p == Parsed([], false)
    ensures data.Str? && data.s != "" ==> p == Parsed([Lower(data.s)], false)
    ensures p.failed ==> data.Arr?
  {
    if !Truthy(data) then Parsed([], false)
    else if data.Str? then Parsed([Lower(data.s)], false)
    else if data.Arr? && |data.items| > 0 && data.items[0].Str? then StringRooms(data.items)
    else if data.Obj? && Field(data, "channel").Str? then
      var channel := Field(data, "channel").s;
      var params := Field(data, "params");
      if params.Arr? then Parsed(ParamRooms(channel, params.items), false)
      else Parsed([Lower(channel)], false)
    else Parsed([], false)
  }

  /** Every room a payload names is lower case. */
  lemma ParsedRoomsAreLowerCase(data: Value)
    ensures forall i :: 0 <= i < |ParseSubscription(data).rooms| ==> IsLowerCase(ParseSubscription(data).rooms[i])
  {
  }

  /** An array of strings names each element, lower-cased, and nothing
      fails. */
  lemma StringArrayRooms(items: seq<Value>)
    requires |items| > 0 && forall i :: 0 <= i < |items| ==> items[i].Str?
    ensures ParseSubscription(Arr(items)).rooms == seq(|items|, i requires 0 <= i < |items| => Lower(items[i].s))
    ensures !ParseSubscription(Arr(items)).failed
  {
  }

  /** An array whose first element is not a string names nothing. */
  lemma NonStringArrayIgnored(items: seq<Value>)
    requires |items| > 0 && !items[0].Str?
    ensures ParseSubscription(Arr(items)) == Parsed([], false)
  {
  }

  /** An object with a string channel and a params array names
      `channel:param` per param; without params, the channel. */
  lemma ChannelObjectRooms(fields: map<string, Value>, channel: string)
    requires "channel" in fields && fields["channel"] == Str(channel)
    ensures "params" in fields && fields["params"].Arr? ==>
              ParseSubscription(Obj(fields)).rooms
              == seq(|fields["params"].items|, i requires 0 <= i < |fields["params"].items| =>
                       Lower(channel + ":" + ToText(fields["params"].items[i])))
    ensures !("params" in fields && fields["params"].Arr?) ==>
              ParseSubscription(Obj(fields)).rooms == [Lower(channel)]
  {
  }

  /** Any client can name another user's room in a subscribe payload. */
  lemma SubscribingToUserRoom(userId: nat)
    ensures ParseSubscription(Str(UserRoom(userId))) == Parsed([UserRoom(userId)], false)
  {
    UserRoomIsLowerCase(userId);
    LowerKeepsLowerCase(UserRoom(userId));
  }

  // ---------------------------------------------------------------------
  // Clients

  /** The user the auth header carries. */
  datatype AuthUser = AuthUser(id: Value)

  /** A connected socket: the rooms it is in and `client.data.user`. */
  class Client {
    var rooms: set<string>
    var user: Option<AuthUser>

    /** A new socket is in its own room only. */
    constructor (socketId: string)
      ensures rooms == {socketId} && user == None
    {
      rooms := {socketId};
      user := None;
    }

    /** `client.join`. */
    method Join(room: string)
      modifies this
      ensures rooms == old(rooms) + {room} && user == old(user)
    {
      rooms := rooms + {room};
    }

    /** `client.leave`. */
    method Leave(room: string)
      modifies this
      ensures rooms == old(rooms) - {room} && user == old(user)
    {
      rooms := rooms - {room};
    }
  }

  /** `handleSubscribe`: the client joins every room the payload names. */
  method HandleSubscribe(client: Client, data: Value)
    modifies client
    ensures client.rooms == old(client.rooms) + Elements(ParseSubscription(data).rooms)
    ensures client.user == old(client.user)
  {
    var rooms := ParseSubscription(data).rooms;
    for i := 0 to |rooms|
      invariant client.rooms == old(client.rooms) + Elements(rooms[..i])
      invariant client.user == old(client.user)
    {
      assert rooms[..i + 1] == rooms[..i] + [rooms[i]];
      ElementsAppend(rooms[..i], rooms[i]);
      client.Join(rooms[i]);
    }
    assert rooms[..|rooms|] == rooms;
  }

  /** `handleUnSubscribe`: the client leaves every room the payload names. */
  method HandleUnsubscribe(client: Client, data: Value)
    modifies client
    ensures client.rooms == old(client.rooms) - Elements(ParseSubscription(data).rooms)
    ensures client.user == old(client.user)
  {
    var rooms := ParseSubscription(data).rooms;
    for i := 0 to |rooms|
      invariant client.rooms == old(client.rooms) - Elements(rooms[..i])
      invariant client.user == old(client.user)
    {
      assert rooms[..i + 1] == rooms[..i] + [rooms[i]];
      ElementsAppend(rooms[..i], rooms[i]);
      client.Leave(rooms[i]);
    }
    assert rooms[..|rooms|] == rooms;
  }

  /** Unsubscribing with the payload one subscribed with leaves a client in
      the rooms it was in before, when it was in none of the named ones. */
  lemma UnsubscribeUndoesSubscribe(before: set<string>, data: Value)
    requires before !! Elements(ParseSubscription(data).rooms)
    ensures (before + Elements(ParseSubscription(data).rooms)) - Elements(ParseSubscription(data).rooms) == before
  {
  }

  /** `parseUserFromHeader` after `JSON.parse`: the header's user, or none
      when the header has no truthy id (or is not an object, whose `id`
      read throws for null). */
  function ParseUser(decoded: Value): (r: Option<AuthUser>)
    ensures r.Some? <==> Truthy(Field(decoded, "id"))
    ensures r.Some? ==> r.value.id == Field(decoded, "id")
  {
    var id := Field(decoded, "id");
    if !Truthy(id) then None else Some(AuthUser(id))
  }

  /** `handleConnection`. `header` is the `x-auth-user` header and
      `decoded` what `JSON.parse` makes of it (`None` when it throws). The
      client learns its user and joins the user's room only when the header
      names a user with a truthy id; `greeted` says whether `connected` was
      emitted. */
  method HandleConnection(client: Client, header: Option<string>, decoded: Option<Value>) returns (greeted: bool)
    modifies client
    ensures var user := if header.Some? && header.value != "" && decoded.Some? then ParseUser(decoded.value) else None;
            && (user.None? ==> client.rooms == old(client.rooms) && client.user == old(client.user) && !greeted)
            && (user.Some? ==> client.user == user && client.rooms == old(client.rooms) + {UserRoomOf(user.value.id)} && greeted)
  {
    greeted := false;
    if header.None? || header.value == "" || decoded.None? {
      return;
    }
    var user := ParseUser(decoded.value);
    if user.None? {
      return;
    }
    client.user := user;
    if Truthy(user.value.id) {
      client.Join(UserRoomOf(user.value.id));
      greeted := true;
    }
  }

  /** `handleDisconnect`: a client with a user leaves the user's room. */
  method HandleDisconnect(client: Client)
    modifies client
    ensures client.user.Some? && Truthy(client.user.value.id) ==>
              client.rooms == old(client.rooms) - {UserRoomOf(client.user.value.id)}
    ensures !(client.user.Some? && Truthy(client.user.value.id)) ==> client.rooms == old(client.rooms)
    ensures client.user == old(client.user)
  {
    if client.user.Some? && Truthy(client.user.value.id) {
      client.Leave(UserRoomOf(client.user.value.id));
    }
  }

  // ---------------------------------------------------------------------
  // Emitting to a user

  /** `payload.channel` is given (a non-empty string). */
  predicate ChannelGiven(channel: Option<string>)
  {
    channel.Some? && channel.value != ""
  }

  /** A socket a message for `userId` on `channel` reaches: it is in the
      user's room and, when a channel is given, in that channel's room too. */
  predicate Receives(rooms: set<string>, userId: int, channel: Option<string>)
  {
    UserRoom(userId) in rooms && (ChannelGiven(channel) ==> Lower(channel.value) in rooms)
  }

  /** A channel only narrows who receives. */
  lemma ChannelNarrows(rooms: set<string>, userId: int, channel: Option<string>)
    ensures Receives(rooms, userId, channel) ==> Receives(rooms, userId, None)
    ensures !ChannelGiven(channel) ==> (Receives(rooms, userId, channel) <==> UserRoom(userId) in rooms)
  {
  }

  /** `emitToUser` over the server's sockets: the sockets the message is
      emitted on, in server order. */
  method EmitToUser(sockets: seq<Client>, userId: int, channel: Option<string>) returns (reached: seq<Client>)
    ensures forall c :: c in reached <==> c in sockets && Receives(c.rooms, userId, channel)
    ensures |reached| <= |sockets|
  {
    var userRoom := UserRoom(userId);
    reached := [];
    for i := 0 to |sockets|
      invariant forall c :: c in reached <==> c in sockets[..i] && Receives(c.rooms, userId, channel)
      invariant |reached| <= i
    {
      assert sockets[..i + 1] == sockets[..i] + [sockets[i]];
      var socket := sockets[i];
      if userRoom in socket.rooms {
        if ChannelGiven(channel) {
          if Lower(channel.value) in socket.rooms {
            reached := reached + [socket];
          }
        } else {
          reached := reached + [socket];
        }
      }
    }
    assert sockets[..|sockets|] == sockets;
  }
}
