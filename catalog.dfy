/**
 * The data contract both gene engines consume from the music catalog
 * service: track, artist and audio-feature records as the service returns
 * them, plus the trait table and example labels the two engines share.
 */
module Catalog {
  import opened Wrappers

  /** An entry of a track's "artists" list. */
  datatype ArtistRef = ArtistRef(id: string, name: string, spotifyURL: string)

  datatype Album = Album(name: string, albumType: string, releaseDate: string, imageURLs: seq<string>)

  /** A full track object. */
  datatype ApiTrack = ApiTrack(
    id: string,
    name: string,
    popularity: int,
    durationMs: int,
    explicit: bool,
    album: Album,
    artists: seq<ArtistRef>,
    spotifyURL: string)

  /** A full artist object (only the fields the engine reads). */
  datatype ApiArtist = ApiArtist(id: string, popularity: int, genres: seq<string>)

  /** An audio-features object; `kind` is its "type" field. */
  datatype AudioFeatures = AudioFeatures(
    id: string,
    energy: real,
    mode: real,
    tempo: real,
    acousticness: real,
    valence: real,
    instrumentalness: real,
    kind: string,
    trackHref: string,
    durationMs: int,
    timeSignature: int)

  /** The four values the classifier reads from a row. */
  datatype GeneInputs = GeneInputs(energy: real, mode: real, tempo: real, acousticness: real)

  function InputsOf(f: AudioFeatures): GeneInputs
  {
    GeneInputs(f.energy, f.mode, f.tempo, f.acousticness)
  }

  /** The feature columns a trait can name. */
  datatype FeatureColumn = Energy | Valence | Tempo | Instrumentalness

  /**
   * The `traitToColumn` dictionary: "energy", "mood", "tempo" and
   * "instrumentation" name a feature column; any other trait is absent.
   */
  function TraitColumn(name: string): (c: Option<FeatureColumn>)
    ensures c.Some? <==> name in {"energy", "mood", "tempo", "instrumentation"}
    ensures name == "energy" ==> c == Some(Energy)
    ensures name == "mood" ==> c == Some(Valence)
    ensures name == "tempo" ==> c == Some(Tempo)
    ensures name == "instrumentation" ==> c == Some(Instrumentalness)
  {
    if name == "energy" then Some(Energy)
    else if name == "mood" then Some(Valence)
    else if name == "tempo" then Some(Tempo)
    else if name == "instrumentation" then Some(Instrumentalness)
    else None
  }

  function FeatureValue(f: AudioFeatures, c: FeatureColumn): real
  {
    match c
    case Energy => f.energy
    case Valence => f.valence
    case Tempo => f.tempo
    case Instrumentalness => f.instrumentalness
  }

  /** The "Label" column of an examples table. */
  datatype Label = Top | Contrary
}
