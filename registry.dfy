/**
 The abstract value of the bot's in-memory registry (spotifybot/data.py): a room
 table mapping a Matrix room id to the room's playlist, and a user table mapping a
 Matrix user id (mxid) to that user's Spotify client. Both tables are Python
 dictionaries; a lookup of a missing key raises `KeyError`, which is modelled as an
 `Err` result.

 The functions here specify the registry's four operations on values; the class
 `BotData.Data` performs them in place and is proved against them. The lemmas
 state what the operations promise: get-after-set, overwrite rather than append,
 frame conditions between keys and between the two tables, idempotence, and, for
 any history of updates, last-write-wins.
 */
module Registry {
  import opened Spotify

  datatype Option<T> = None | Some(value: T)

  /** The error a Python dictionary raises for a key it does not hold. */
  datatype Error = KeyError(key: string)

  datatype Result<T> = Ok(value: T) | Err(error: Error)

  /** The two tables of the registry. */
  datatype Tables = Tables(rooms: map<string, Playlist>, users: map<string, SpotifyClient>)

  /** `d[key]` on a Python dictionary. */
  function Lookup<V>(d: map<string, V>, key: string): Result<V>
  {
    if key in d then Ok(d[key]) else Err(KeyError(key))
  }

  /** The registry as a fresh `Data()` holds it: no room has a playlist, no user a client. */
  function Empty(): (t: Tables)
    ensures forall room :: PlaylistByRoom(t, room) == Err(KeyError(room))
    ensures forall mxid :: SpotifyClientByMxid(t, mxid) == Err(KeyError(mxid))
  {
    Tables(map[], map[])
  }

  /** The playlist of `room`, or the `KeyError` for a room that has none. */
  function PlaylistByRoom(t: Tables, room: string): (r: Result<Playlist>)
    ensures r.Ok? <==> room in t.rooms
    ensures r.Ok? ==> r.value == t.rooms[room]
    ensures r.Err? ==> r.error == KeyError(room)
  {
    Lookup(t.rooms, room)
  }

  /** The Spotify client of user `mxid`, or the `KeyError` for a user that has none. */
  function SpotifyClientByMxid(t: Tables, mxid: string): (r: Result<SpotifyClient>)
    ensures r.Ok? <==> mxid in t.users
    ensures r.Ok? ==> r.value == t.users[mxid]
    ensures r.Err? ==> r.error == KeyError(mxid)
  {
    Lookup(t.users, mxid)
  }

  /** Upsert of the playlist of `room`. */
  function SetRoomPlaylist(t: Tables, room: string, playlist: Playlist): (t': Tables)
    // the room's lookup now gives the new playlist
    ensures PlaylistByRoom(t', room) == Ok(playlist)
    // every other room keeps its entry, or keeps having none
    ensures forall other :: other != room ==> PlaylistByRoom(t', other) == PlaylistByRoom(t, other)
    // one entry per room: the room is added to the key set, never duplicated
    ensures t'.rooms.Keys == t.rooms.Keys + {room}
    // the user table is untouched
    ensures t'.users == t.users
  {
    t.(rooms := t.rooms[room := playlist])
  }

  /** Upsert of the Spotify client of user `mxid`. */
  function SetSpotifyUser(t: Tables, mxid: string, client: SpotifyClient): (t': Tables)
    ensures SpotifyClientByMxid(t', mxid) == Ok(client)
    ensures forall other :: other != mxid ==> SpotifyClientByMxid(t', other) == SpotifyClientByMxid(t, other)
    ensures t'.users.Keys == t.users.Keys + {mxid}
    ensures t'.rooms == t.rooms
  {
    t.(users := t.users[mxid := client])
  }

  /** Two tables are equal exactly when every lookup in them agrees. */
  lemma {:induction false} SameLookupsSameTables(t: Tables, u: Tables)
    requires forall room :: PlaylistByRoom(t, room) == PlaylistByRoom(u, room)
    requires forall mxid :: SpotifyClientByMxid(t, mxid) == SpotifyClientByMxid(u, mxid)
    ensures t == u
  {
    assert t.rooms.Keys == u.rooms.Keys by {
      forall room ensures room in t.rooms <==> room in u.rooms {
        assert PlaylistByRoom(t, room).Ok? == PlaylistByRoom(u, room).Ok?;
      }
    }
    assert t.rooms == u.rooms by {
      forall room | room in t.rooms ensures t.rooms[room] == u.rooms[room] {
        assert PlaylistByRoom(t, room) == PlaylistByRoom(u, room);
      }
    }
    assert t.users.Keys == u.users.Keys by {
      forall mxid ensures mxid in t.users <==> mxid in u.users {
        assert SpotifyClientByMxid(t, mxid).Ok? == SpotifyClientByMxid(u, mxid).Ok?;
      }
    }
    assert t.users == u.users by {
      forall mxid | mxid in t.users ensures t.users[mxid] == u.users[mxid] {
        assert SpotifyClientByMxid(t, mxid) == SpotifyClientByMxid(u, mxid);
      }
    }
  }

  /** A second playlist for a room replaces the first one: the first set leaves no trace. */
  lemma SetRoomPlaylistOverwrites(t: Tables, room: string, p1: Playlist, p2: Playlist)
    ensures SetRoomPlaylist(SetRoomPlaylist(t, room, p1), room, p2) == SetRoomPlaylist(t, room, p2)
    ensures PlaylistByRoom(SetRoomPlaylist(SetRoomPlaylist(t, room, p1), room, p2), room) == Ok(p2)
  {
  }

  /** Setting a room to the playlist it already has changes nothing. */
  lemma SetRoomPlaylistIdempotent(t: Tables, room: string, p: Playlist)
    ensures SetRoomPlaylist(SetRoomPlaylist(t, room, p), room, p) == SetRoomPlaylist(t, room, p)
    ensures PlaylistByRoom(t, room) == Ok(p) ==> SetRoomPlaylist(t, room, p) == t
  {
  }

  /** A second client for a user replaces the first one. */
  lemma SetSpotifyUserOverwrites(t: Tables, mxid: string, c1: SpotifyClient, c2: SpotifyClient)
    ensures SetSpotifyUser(SetSpotifyUser(t, mxid, c1), mxid, c2) == SetSpotifyUser(t, mxid, c2)
    ensures SpotifyClientByMxid(SetSpotifyUser(SetSpotifyUser(t, mxid, c1), mxid, c2), mxid) == Ok(c2)
  {
  }

  /** Setting a user to the client it already has changes nothing. */
  lemma SetSpotifyUserIdempotent(t: Tables, mxid: string, c: SpotifyClient)
    ensures SetSpotifyUser(SetSpotifyUser(t, mxid, c), mxid, c) == SetSpotifyUser(t, mxid, c)
    ensures SpotifyClientByMxid(t, mxid) == Ok(c) ==> SetSpotifyUser(t, mxid, c) == t
  {
  }

  /** Updates of different rooms do not interfere: their order does not matter. */
  lemma SetRoomPlaylistCommutes(t: Tables, r1: string, p1: Playlist, r2: string, p2: Playlist)
    requires r1 != r2
    ensures SetRoomPlaylist(SetRoomPlaylist(t, r1, p1), r2, p2)
         == SetRoomPlaylist(SetRoomPlaylist(t, r2, p2), r1, p1)
  {
  }

  /** Updates of different users do not interfere: their order does not matter. */
  lemma SetSpotifyUserCommutes(t: Tables, m1: string, c1: SpotifyClient, m2: string, c2: SpotifyClient)
    requires m1 != m2
    ensures SetSpotifyUser(SetSpotifyUser(t, m1, c1), m2, c2)
         == SetSpotifyUser(SetSpotifyUser(t, m2, c2), m1, c1)
  {
  }

  /** The two tables are independent: a room update and a user update commute. */
  lemma TablesIndependent(t: Tables, room: string, p: Playlist, mxid: string, c: SpotifyClient)
    ensures SetSpotifyUser(SetRoomPlaylist(t, room, p), mxid, c)
         == SetRoomPlaylist(SetSpotifyUser(t, mxid, c), room, p)
  {
  }

  // ---------------------------------------------------------------------------
  // Histories of updates

  /** One call of an updating method of the registry. */
  datatype Update =
    | SetRoom(room: string, playlist: Playlist)
    | SetUser(mxid: string, client: SpotifyClient)

  function Apply(t: Tables, u: Update): Tables
  {
    match u
    case SetRoom(room, playlist) => SetRoomPlaylist(t, room, playlist)
    case SetUser(mxid, client) => SetSpotifyUser(t, mxid, client)
  }

  /** The tables after performing `us` in order, starting from `t`. */
  function Run(t: Tables, us: seq<Update>): Tables
    decreases |us|
  {
    if us == [] then t else Run(Apply(t, us[0]), us[1..])
  }

  /** The playlist of the last update of `room` in `us`, if `us` updates `room` at all. */
  function LastPlaylistSet(us: seq<Update>, room: string): Option<Playlist>
    decreases |us|
  {
    if us == [] then None
    else match LastPlaylistSet(us[1..], room)
      case Some(p) => Some(p)
      case None => if us[0].SetRoom? && us[0].room == room then Some(us[0].playlist) else None
  }

  /** The client of the last update of `mxid` in `us`, if `us` updates `mxid` at all. */
  function LastClientSet(us: seq<Update>, mxid: string): Option<SpotifyClient>
    decreases |us|
  {
    if us == [] then None
    else match LastClientSet(us[1..], mxid)
      case Some(c) => Some(c)
      case None => if us[0].SetUser? && us[0].mxid == mxid then Some(us[0].client) else None
  }

  /** The rooms that `us` gives a playlist to. */
  function RoomsSet(us: seq<Update>): set<string>
    decreases |us|
  {
    if us == [] then {} else (if us[0].SetRoom? then {us[0].room} else {}) + RoomsSet(us[1..])
  }

  /** The users that `us` gives a client to. */
  function UsersSet(us: seq<Update>): set<string>
    decreases |us|
  {
    if us == [] then {} else (if us[0].SetUser? then {us[0].mxid} else {}) + UsersSet(us[1..])
  }

  /** Last write wins: after any history, a room's playlist is the one it was last set to,
      and a room the history never set keeps whatever it had before. */
  lemma {:induction false} RunPlaylistByRoom(t: Tables, us: seq<Update>, room: string)
    ensures PlaylistByRoom(Run(t, us), room)
         == match LastPlaylistSet(us, room)
            case Some(p) => Ok(p)
            case None => PlaylistByRoom(t, room)
    decreases |us|
  {
    if us != [] {
      RunPlaylistByRoom(Apply(t, us[0]), us[1..], room);
    }
  }

  /** Last write wins for the user table. */
  lemma {:induction false} RunSpotifyClientByMxid(t: Tables, us: seq<Update>, mxid: string)
    ensures SpotifyClientByMxid(Run(t, us), mxid)
         == match LastClientSet(us, mxid)
            case Some(c) => Ok(c)
            case None => SpotifyClientByMxid(t, mxid)
    decreases |us|
  {
    if us != [] {
      RunSpotifyClientByMxid(Apply(t, us[0]), us[1..], mxid);
    }
  }

  /** The room table never grows by more than the rooms a history names: one entry per room. */
  lemma {:induction false} RunRoomKeys(t: Tables, us: seq<Update>)
    ensures Run(t, us).rooms.Keys == t.rooms.Keys + RoomsSet(us)
    decreases |us|
  {
    if us != [] {
      RunRoomKeys(Apply(t, us[0]), us[1..]);
    }
  }

  /** The user table never grows by more than the users a history names: one entry per user. */
  lemma {:induction false} RunUserKeys(t: Tables, us: seq<Update>)
    ensures Run(t, us).users.Keys == t.users.Keys + UsersSet(us)
    decreases |us|
  {
    if us != [] {
      RunUserKeys(Apply(t, us[0]), us[1..]);
    }
  }

  /** From a fresh registry, a room lookup fails exactly for the rooms no update has set,
      and otherwise gives the playlist set last. */
  lemma {:induction false} FreshRunPlaylistByRoom(us: seq<Update>, room: string)
    ensures PlaylistByRoom(Run(Empty(), us), room).Err? <==> LastPlaylistSet(us, room).None?
    ensures LastPlaylistSet(us, room).Some? ==>
              PlaylistByRoom(Run(Empty(), us), room) == Ok(LastPlaylistSet(us, room).value)
  {
    RunPlaylistByRoom(Empty(), us, room);
  }

  /** From a fresh registry, a client lookup fails exactly for the users no update has set. */
  lemma {:induction false} FreshRunSpotifyClientByMxid(us: seq<Update>, mxid: string)
    ensures SpotifyClientByMxid(Run(Empty(), us), mxid).Err? <==> LastClientSet(us, mxid).None?
    ensures LastClientSet(us, mxid).Some? ==>
              SpotifyClientByMxid(Run(Empty(), us), mxid) == Ok(LastClientSet(us, mxid).value)
  {
    RunSpotifyClientByMxid(Empty(), us, mxid);
  }
}
