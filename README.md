# maubot-spotify registry, in Dafny

The Spotify bot for Matrix defines an in-memory registry, `Data` (spotifybot/data.py);
the bot's command handlers (spotifybot/bot.py, spotifybot.py) do not use it yet.
The registry has two tables. The room table maps a Matrix room id to a playlist. The
user table maps a Matrix user id (mxid) to a Spotify client. The registry offers two
upserts, `set_room_playlist` and `set_spotify_user`. It offers two lookups,
`playlist_by_room` and `spotify_client_by_mxid`. A lookup of a missing key raises Python's `KeyError`.

This project models that registry:

- `spotify.dfy` (module `Spotify`) holds the stored values. A `Playlist` carries only its
  Spotify id, as in spotifybot/spotify.py. A `SpotifyClient` is a value known only by
  the token it was built from; the Python client keeps a spotipy session instead.
- `registry.dfy` (module `Registry`) is the registry's value model. `Tables` holds the
  two tables. The four operations are functions on it, and a lookup of a missing key
  gives `Err(KeyError(key))`. The functions' contracts state get after set and the frame
  conditions between keys and between the two tables. Lemmas state overwrite rather than
  append, idempotence and commutation; Dafny establishes those from the map axioms alone,
  so their bodies are empty. For any history of updates (`Run`), lemmas proved by
  induction show that the last write wins and that each table holds one entry per key.
- `data.dfy` (module `BotData`) is the class `Data` itself. Its two `map` fields are
  updated in place. Each method is proved against the `Registry` function for that
  operation, over the abstract value `Tables()`.

## Model

| member | source | states |
|---|---|---|
| `BotData.Data.constructor` | spotifybot/data.py:5-7 | a fresh registry has an empty room table and an empty user table |
| `BotData.Data.SpotifyClientByMxid` | spotifybot/data.py:9-10 | returns the user's stored client exactly when the mxid is in the user table, otherwise `KeyError(mxid)`; agrees with `Registry.SpotifyClientByMxid` |
| `BotData.Data.PlaylistByRoom` | spotifybot/data.py:12-13 | returns the room's stored playlist exactly when the room is in the room table, otherwise `KeyError(room)`; agrees with `Registry.PlaylistByRoom` |
| `BotData.Data.SetRoomPlaylist` | spotifybot/data.py:15-16 | the room table becomes the old one with `room` mapped to the playlist; the user table is unchanged |
| `BotData.Data.SetSpotifyUser` | spotifybot/data.py:18-19 | the user table becomes the old one with `mxid` mapped to the client; the room table is unchanged |
| `Registry.Empty` | spotifybot/data.py:5-7 | in a fresh registry every room lookup and every user lookup fails with `KeyError` for that key |
| `Registry.PlaylistByRoom` | spotifybot/data.py:12-13 | a room lookup succeeds exactly for rooms in the table and then gives the stored playlist; otherwise it is `KeyError(room)` |
| `Registry.SpotifyClientByMxid` | spotifybot/data.py:9-10 | a user lookup succeeds exactly for mxids in the table and then gives the stored client; otherwise it is `KeyError(mxid)` |
| `Registry.SetRoomPlaylist` | spotifybot/data.py:15-16 | get after set gives the new playlist; every other room's lookup is unchanged; the room key set gains only `room`; the user table is untouched |
| `Registry.SetSpotifyUser` | spotifybot/data.py:18-19 | get after set gives the new client; every other user's lookup is unchanged; the user key set gains only `mxid`; the room table is untouched |
| `Registry.SameLookupsSameTables` | spotifybot/data.py:9-13 | two registries whose every room and user lookup agree are the same registry, so the lookups observe the whole state |
| `Registry.SetRoomPlaylistOverwrites` | spotifybot/data.py:15-16 | setting `p1` then `p2` for a room gives the same registry as setting only `p2`, and the lookup then gives `p2` |
| `Registry.SetRoomPlaylistIdempotent` | spotifybot/data.py:15-16 | setting the same playlist twice equals setting it once, and setting a room to the playlist it already has changes nothing |
| `Registry.SetSpotifyUserOverwrites` | spotifybot/data.py:18-19 | setting `c1` then `c2` for a user gives the same registry as setting only `c2`, and the lookup then gives `c2` |
| `Registry.SetSpotifyUserIdempotent` | spotifybot/data.py:18-19 | setting the same client twice equals setting it once, and setting a user to the client it already has changes nothing |
| `Registry.SetRoomPlaylistCommutes` | spotifybot/data.py:15-16 | updates of two different rooms commute |
| `Registry.SetSpotifyUserCommutes` | spotifybot/data.py:18-19 | updates of two different users commute |
| `Registry.TablesIndependent` | spotifybot/data.py:15-19 | a room update and a user update commute, so neither table affects the other |
| `Registry.RunPlaylistByRoom` | spotifybot/data.py:12-16 | after any history of updates, a room's lookup gives the playlist from the room's last update; a room the history never set keeps its earlier lookup |
| `Registry.RunSpotifyClientByMxid` | spotifybot/data.py:9-19 | after any history of `set_room_playlist`/`set_spotify_user` calls (data.py:15-19), a user's lookup gives the client from the user's last update; a user the history never set keeps its earlier lookup |
| `Registry.RunRoomKeys` | spotifybot/data.py:15-16 | after any history, the room table's keys are the earlier keys plus the rooms the history set: one entry per room, never appended |
| `Registry.RunUserKeys` | spotifybot/data.py:18-19 | after any history, the user table's keys are the earlier keys plus the users the history set: one entry per user, never appended |
| `Registry.FreshRunPlaylistByRoom` | spotifybot/data.py:5-16 | from a fresh registry, a room lookup fails exactly when no update set that room; otherwise it gives the last playlist set |
| `Registry.FreshRunSpotifyClientByMxid` | spotifybot/data.py:5-19 | from a fresh registry (data.py:5-7) and any history of `set_room_playlist`/`set_spotify_user` calls (data.py:15-19), a user lookup fails exactly when no update set that user; otherwise it gives the last client set |

## Left out

- `SpotifyClient` construction and `add_song_to_playlist` (spotifybot/spotify.py:27-37) are left out. They build a `spotipy` session, call the Spotify Web API and print the reply. A client is a value here, known only by the token it was built from.
- Object identity is not modelled. Python stores and returns references to client and playlist objects. The model stores values, so two clients built from the same token are equal here.
- The `SpotifyElement`, `Album` and `Song` wrappers (spotifybot/spotify.py:4-24) are left out, and so is the unimplemented `Playlist.name` stub. Only `Playlist`, reduced to its id, is stored in the registry.
- The maubot command handlers (spotifybot/bot.py:7-18, spotifybot.py:7-18) are left out. They only reply to or react to chat messages. Their passive regular expressions rely on maubot's matching, which is not part of this model.
- Configuration copying (spotifybot/config.py:4-9) is left out. It delegates to mautrix's `ConfigUpdateHelper`, which is not part of this model.
- The source has no code for the OAuth handshake, a correlation-key store, credential storage and refresh, room first-seen and last-seen tracking, playlist URL parsing or database migrations; the `login` subcommand (spotifybot/bot.py:12-14) only reacts to the message. These are not modelled.
- Concurrency between the bot's async handlers is not modelled. The registry itself uses plain sequential dictionary access.
