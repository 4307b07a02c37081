/**
 * A song (src/song.rs): its metadata and a dictionary of named tracks.
 * `add_track` inserts into that dictionary in place, so `Song` is a class
 * whose `tracks` field is a map the method reassigns.
 */
module Songs {
  import opened Wrappers
  import opened Notes
  import opened Numeric

  /** The album cover: decoded RGBA pixels when the image file could be opened. */
  datatype Image = Image(pixels: Option<seq<Byte>>)

  class Song {
    const name: string
    const artist: string
    const album: string
    const albumCover: Option<Image>
    const videoPath: Option<string>
    var tracks: map<string, Track>

    /** `Song::new`: metadata stored as given, no tracks yet. */
    constructor (name: string, artist: string, album: string,
                 albumCover: Option<Image>, videoPath: Option<string>)
      ensures this.name == name && this.artist == artist && this.album == album
      ensures this.albumCover == albumCover && this.videoPath == videoPath
      ensures tracks == map[] && NumTracks() == 0
    {
      this.name, this.artist, this.album := name, artist, album;
      this.albumCover, this.videoPath := albumCover, videoPath;
      tracks := map[];
    }

    /** `num_tracks`: the number of distinct track names. */
    function NumTracks(): (n: nat)
      reads this
      ensures n == |tracks.Keys|
      ensures n == 0 <==> tracks == map[]
    {
      |tracks|
    }

    /** `add_track`: inserts or overwrites the entry for `trackName`. */
    method AddTrack(trackName: string, track: Track)
      modifies this`tracks
      ensures tracks == old(tracks)[trackName := track]
      ensures trackName in tracks && tracks[trackName] == track
      ensures forall n :: n in old(tracks) && n != trackName ==> n in tracks && tracks[n] == old(tracks)[n]
      ensures tracks.Keys == old(tracks).Keys + {trackName}
      ensures NumTracks() == old(NumTracks()) + (if trackName in old(tracks) then 0 else 1)
    {
      InsertSize(tracks, trackName, track);
      tracks := tracks[trackName := track];
    }
  }

  /** Inserting a key grows a map by one exactly when the key is new. */
  lemma InsertSize<K, V>(m: map<K, V>, k: K, v: V)
    ensures |m[k := v]| == |m| + (if k in m then 0 else 1)
  {
    if k in m {
      assert m[k := v].Keys == m.Keys;
    } else {
      assert m[k := v].Keys == m.Keys + {k};
    }
  }
}
