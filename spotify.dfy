/**
 The values the bot's registry stores (spotifybot/spotify.py).

 Every Spotify element of the bot is only a wrapper around the element's id, so a
 playlist is modelled as a plain value carrying that id. A `SpotifyClient` wraps a
 spotipy session opened with an access token; the session itself is a foreign
 library object, so the model keeps only the token the client was built from: a
 client is a value known only by that token.
 */
module Spotify {

  /** A Spotify playlist, identified by its Spotify id. */
  datatype Playlist = Playlist(id: string)

  /** A Spotify client, known only by the token it was built from. */
  datatype SpotifyClient = SpotifyClient(token: string)
}
