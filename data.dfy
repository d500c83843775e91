/**
 The bot's in-memory registry `Data` (spotifybot/data.py), which updates its two
 dictionaries in place. Each method is proved against the value model in module
 `Registry`: `Tables()` is the registry's abstract value, and every method states
 the new value, or the result it returns, as the corresponding `Registry` function
 of the old value. The two lookups are written once more here, as methods that read
 the fields, because the class is what performs them; their contracts equate each
 with its `Registry` function, so the two definitions cannot drift apart.
 */
module BotData {
  import opened Spotify
  import opened Registry

  class Data {
    /** Room id to the room's playlist. */
    var rooms: map<string, Playlist>
    /** Matrix user id to the user's Spotify client. */
    var users: map<string, SpotifyClient>

    /** The registry's abstract value. */
    function Tables(): Registry.Tables
      reads this
    {
      Registry.Tables(rooms, users)
    }

    /** A fresh registry with an empty room table and an empty user table. */
    constructor ()
      ensures Tables() == Empty()
      ensures rooms == map[] && users == map[]
    {
      rooms := map[];
      users := map[];
    }

    /** The Spotify client of `mxid`; `KeyError` when the user has none. */
    method SpotifyClientByMxid(mxid: string) returns (r: Result<SpotifyClient>)
      ensures r == Registry.SpotifyClientByMxid(Tables(), mxid)
      ensures r.Ok? <==> mxid in users
      ensures r.Ok? ==> r.value == users[mxid]
    {
      if mxid in users {
        r := Ok(users[mxid]);
      } else {
        r := Err(KeyError(mxid));
      }
    }

    /** The playlist of `room`; `KeyError` when the room has none. */
    method PlaylistByRoom(room: string) returns (r: Result<Playlist>)
      ensures r == Registry.PlaylistByRoom(Tables(), room)
      ensures r.Ok? <==> room in rooms
      ensures r.Ok? ==> r.value == rooms[room]
    {
      if room in rooms {
        r := Ok(rooms[room]);
      } else {
        r := Err(KeyError(room));
      }
    }

    /** Sets (or replaces) the playlist of `room`. */
    method SetRoomPlaylist(room: string, playlist: Playlist)
      modifies this
      ensures Tables() == Registry.SetRoomPlaylist(old(Tables()), room, playlist)
      ensures rooms == old(rooms)[room := playlist] && users == old(users)
    {
      rooms := rooms[room := playlist];
    }

    /** Sets (or replaces) the Spotify client of `mxid`. */
    method SetSpotifyUser(mxid: string, client: SpotifyClient)
      modifies this
      ensures Tables() == Registry.SetSpotifyUser(old(Tables()), mxid, client)
      ensures users == old(users)[mxid := client] && rooms == old(rooms)
    {
      users := users[mxid := client];
    }
  }
}
