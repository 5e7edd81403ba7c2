/**
 * The track "gene" engine of class UserGenes: a four-letter classifier over
 * audio features, the assembly of track records from catalog responses,
 * the library flags and audio-feature merge that give every track its gene,
 * and the readers that summarise a gene table.
 */
module Genes {
  import opened Wrappers
  import opened Frame
  import opened Catalog

  // ---------------------------------------------------------------------
  // The classifier
  // ---------------------------------------------------------------------

  /** A gene code: energy, mood, tempo and instrumentation, in that order. */
  predicate IsGeneCode(g: string)
  {
    |g| == 4 && g[0] in "HL" && g[1] in "PN" && g[2] in "FS" && g[3] in "EA"
  }

  /**
   * calculateGene: each letter is decided by one strict threshold, so a
   * value equal to the threshold takes the second letter.
   */
  function CalculateGene(row: GeneInputs): (g: string)
    ensures IsGeneCode(g)
    ensures g[0] == 'H' <==> row.energy > 0.5
    ensures g[1] == 'P' <==> row.mode > 0.49
    ensures g[2] == 'F' <==> row.tempo > 100.0
    ensures g[3] == 'E' <==> row.acousticness < 0.5
  {
    var energyGene := if row.energy > 0.5 then 'H' else 'L';
    var moodGene := if row.mode > 0.49 then 'P' else 'N';
    var tempoGene := if row.tempo > 100.0 then 'F' else 'S';
    var instrumentationGene := if row.acousticness < 0.5 then 'E' else 'A';
    [energyGene, moodGene, tempoGene, instrumentationGene]
  }

  /** A feature row that lies on the side of every threshold that `g` names. */
  function Representative(g: string): GeneInputs
    requires IsGeneCode(g)
  {
    GeneInputs(
      if g[0] == 'H' then 1.0 else 0.0,
      if g[1] == 'P' then 1.0 else 0.0,
      if g[2] == 'F' then 120.0 else 80.0,
      if g[3] == 'E' then 0.0 else 1.0)
  }

  /** Every one of the sixteen codes is produced by some feature row. */
  lemma {:induction false} EveryCodeOccurs(g: string)
    requires IsGeneCode(g)
    ensures CalculateGene(Representative(g)) == g
  {
    var c := CalculateGene(Representative(g));
    assert c[0] == g[0] && c[1] == g[1] && c[2] == g[2] && c[3] == g[3];
  }

  /** Two rows share a gene exactly when they lie on the same side of all four thresholds. */
  lemma {:induction false} SameGeneSameSides(a: GeneInputs, b: GeneInputs)
    ensures CalculateGene(a) == CalculateGene(b) <==>
      (a.energy > 0.5 <==> b.energy > 0.5) && (a.mode > 0.49 <==> b.mode > 0.49) &&
      (a.tempo > 100.0 <==> b.tempo > 100.0) && (a.acousticness < 0.5 <==> b.acousticness < 0.5)
  {
    var ga, gb := CalculateGene(a), CalculateGene(b);
    if (a.energy > 0.5 <==> b.energy > 0.5) && (a.mode > 0.49 <==> b.mode > 0.49) &&
       (a.tempo > 100.0 <==> b.tempo > 100.0) && (a.acousticness < 0.5 <==> b.acousticness < 0.5) {
      assert ga[0] == gb[0] && ga[1] == gb[1] && ga[2] == gb[2] && ga[3] == gb[3];
    }
  }

  /** Values on a threshold fall to the second letter; mode 0 and 1 give N and P. */
  lemma ThresholdBoundaries()
    ensures CalculateGene(GeneInputs(0.5, 0.0, 100.0, 0.5)) == "LNSA"
    ensures CalculateGene(GeneInputs(0.51, 1.0, 100.5, 0.49)) == "HPFE"
  {
  }

  // ---------------------------------------------------------------------
  // Number formatting in track records
  // ---------------------------------------------------------------------

  function DigitChar(d: nat): (c: char)
    requires d < 10
    ensures '0' <= c <= '9' && c as int - '0' as int == d
  {
    ('0' as int + d) as char
  }

  predicate AllDigits(s: string)
  {
    forall i :: 0 <= i < |s| ==> '0' <= s[i] <= '9'
  }

  /** The shape of Python's str() of an integer: an optional minus sign, then digits. */
  predicate IsDecimal(s: string)
  {
    s != [] && if s[0] == '-' then |s| > 1 && AllDigits(s[1..]) else AllDigits(s)
  }

  /** The decimal digits of `n`, most significant first, without leading zeros. */
  function Digits(n: nat): (s: string)
    ensures |s| > 0 && AllDigits(s)
    ensures |s| > 1 ==> s[0] != '0'
  {
    if n < 10 then [DigitChar(n)] else Digits(n / 10) + [DigitChar(n % 10)]
  }

  function DigitsValue(s: string): nat
    requires AllDigits(s)
  {
    if s == [] then 0 else DigitsValue(s[..|s| - 1]) * 10 + (s[|s| - 1] as int - '0' as int)
  }

  /** Python's str() of an integer. */
  function Decimal(n: int): (s: string)
    ensures IsDecimal(s)
  {
    if n < 0 then "-" + Digits(-n) else Digits(n)
  }

  function DecimalValue(s: string): int
    requires IsDecimal(s)
  {
    if s[0] == '-' then 0 - DigitsValue(s[1..]) else DigitsValue(s)
  }

  lemma {:induction false} DigitsRoundTrip(n: nat)
    ensures DigitsValue(Digits(n)) == n
  {
    if n >= 10 {
      var s := Digits(n);
      assert s[..|s| - 1] == Digits(n / 10);
      DigitsRoundTrip(n / 10);
    }
  }

  /** `f'{n} (0-100)'`, the popularity text of tracks and artists. */
  function PopularityText(n: int): string
  {
    Decimal(n) + " (0-100)"
  }

  /** `f'{n} ms'`, the duration text of a track. */
  function DurationText(n: int): string
  {
    Decimal(n) + " ms"
  }

  lemma {:induction false} DecimalRoundTrip(n: int)
    ensures DecimalValue(Decimal(n)) == n
  {
    if n < 0 {
      assert Decimal(n)[1..] == Digits(-n);
      DigitsRoundTrip(-n);
    } else {
      DigitsRoundTrip(n);
    }
  }

  /** The popularity and duration texts keep the number: it can be read back from them. */
  lemma {:induction false} FormattedNumbersRoundTrip(n: int)
    ensures var p := PopularityText(n); |p| > 8 && p[|p| - 8..] == " (0-100)" && IsDecimal(p[..|p| - 8]) && DecimalValue(p[..|p| - 8]) == n
    ensures var d := DurationText(n); |d| > 3 && d[|d| - 3..] == " ms" && IsDecimal(d[..|d| - 3]) && DecimalValue(d[..|d| - 3]) == n
  {
    var p, d := PopularityText(n), DurationText(n);
    assert p[..|p| - 8] == Decimal(n);
    assert d[..|d| - 3] == Decimal(n);
    DecimalRoundTrip(n);
  }

  // ---------------------------------------------------------------------
  // Track records (createTrackInfoDataFrame)
  // ---------------------------------------------------------------------

  /** The "artistNames" cell: a list as built, a tuple once a caller converts it. */
  datatype ArtistNames = NameList(names: seq<string>) | NameTuple(names: seq<string>)

  /** One row of a track-info table. */
  datatype TrackInfo = TrackInfo(
    id: string,
    trackName: string,
    trackPopularity: string,
    trackDurationMs: string,
    trackExplicit: bool,
    albumName: string,
    albumType: string,
    albumReleaseDate: string,
    artistNames: ArtistNames,
    artistLinks: seq<string>,
    artistID: string,
    artistGenres: seq<string>,
    artistPopularity: string,
    spotifyURL: string,
    albumCoverURL: string)

  datatype ArtistInfo = ArtistInfo(popularity: int, genres: seq<string>)

  /**
   * The artist-info dictionary, keyed by artist id. When the response lists
   * an id twice, the later entry wins, as in a dict comprehension.
   */
  function ArtistInfoDict(artists: seq<ApiArtist>): (d: map<string, ArtistInfo>)
    ensures d.Keys == ArtistIds(artists)
    ensures forall i :: 0 <= i < |artists| ==> artists[i].id in d
    ensures forall i :: 0 <= i < |artists| && LastWithId(artists, i) ==>
      d[artists[i].id] == ArtistInfo(artists[i].popularity, artists[i].genres)
  {
    if artists == [] then map[]
    else
      var first, rest := artists[0], ArtistInfoDict(artists[1..]);
      var d := map[first.id := ArtistInfo(first.popularity, first.genres)] + rest;
      ArtistIdsCover(artists);
      forall i | 0 <= i < |artists| && LastWithId(artists, i)
        ensures d[artists[i].id] == ArtistInfo(artists[i].popularity, artists[i].genres)
      {
        if i == 0 {
          ArtistIdsMembers(artists[1..], first.id);
          forall k | 0 <= k < |artists[1..]|
            ensures artists[1..][k].id != first.id
          {
            assert artists[1..][k] == artists[k + 1];
          }
        } else {
          assert artists[i] == artists[1..][i - 1];
          assert LastWithId(artists[1..], i - 1) by {
            forall j | i - 1 < j < |artists[1..]| ensures artists[1..][j].id != artists[i].id {
              assert artists[1..][j] == artists[j + 1];
            }
          }
          ArtistIdsMembers(artists[1..], artists[i].id);
        }
      }
      d
  }

  /** The ids an artist response lists. */
  function ArtistIds(artists: seq<ApiArtist>): set<string>
  {
    if artists == [] then {} else {artists[0].id} + ArtistIds(artists[1..])
  }

  lemma {:induction false} ArtistIdsCover(artists: seq<ApiArtist>)
    ensures forall i :: 0 <= i < |artists| ==> artists[i].id in ArtistIds(artists)
  {
    if artists != [] {
      ArtistIdsCover(artists[1..]);
      assert forall i :: 1 <= i < |artists| ==> artists[i] == artists[1..][i - 1];
    }
  }

  lemma {:induction false} ArtistIdsMembers(artists: seq<ApiArtist>, id: string)
    ensures id in ArtistIds(artists) <==> exists i :: 0 <= i < |artists| && artists[i].id == id
  {
    if artists != [] {
      ArtistIdsMembers(artists[1..], id);
      if id in ArtistIds(artists[1..]) {
        var k :| 0 <= k < |artists[1..]| && artists[1..][k].id == id;
        assert artists[k + 1].id == id;
      }
      if exists i :: 0 <= i < |artists| && artists[i].id == id {
        var i :| 0 <= i < |artists| && artists[i].id == id;
        if i > 0 {
          assert artists[1..][i - 1].id == id;
        }
      }
    }
  }

  /** No artist after position `i` has the id of the artist at `i`. */
  predicate LastWithId(artists: seq<ApiArtist>, i: nat)
    requires i < |artists|
  {
    forall j :: i < j < |artists| ==> artists[j].id != artists[i].id
  }

  /**
   * The record built for one track. Reading the first artist fails with an
   * index error when the track lists no artists, and with a key error when
   * that artist is missing from the dictionary; an album without images
   * fails with an index error.
   */
  function TrackRecord(t: ApiTrack, artistInfo: map<string, ArtistInfo>): (r: Result<TrackInfo>)
    ensures t.artists == [] ==> r == Err(IndexError)
    ensures t.artists != [] && t.artists[0].id !in artistInfo ==> r == Err(KeyError(t.artists[0].id))
    ensures t.artists != [] && t.artists[0].id in artistInfo && t.album.imageURLs == [] ==> r == Err(IndexError)
    ensures r.Ok? <==> t.artists != [] && t.artists[0].id in artistInfo && t.album.imageURLs != []
  {
    if t.artists == [] then Err(IndexError)
    else if t.artists[0].id !in artistInfo then Err(KeyError(t.artists[0].id))
    else if t.album.imageURLs == [] then Err(IndexError)
    else
      var first := artistInfo[t.artists[0].id];
      Ok(TrackInfo(
        t.id, t.name, PopularityText(t.popularity), DurationText(t.durationMs), t.explicit,
        t.album.name, t.album.albumType, t.album.releaseDate,
        NameList(ArtistNamesOf(t.artists)), ArtistLinksOf(t.artists),
        t.artists[0].id, first.genres, PopularityText(first.popularity),
        t.spotifyURL, t.album.imageURLs[0]))
  }

  /** The names of all the track's artists, in the order the catalog lists them. */
  function ArtistNamesOf(artists: seq<ArtistRef>): (names: seq<string>)
    ensures |names| == |artists|
    ensures forall k :: 0 <= k < |artists| ==> names[k] == artists[k].name
  {
    if artists == [] then [] else [artists[0].name] + ArtistNamesOf(artists[1..])
  }

  /** The catalog links of all the track's artists, in the order the catalog lists them. */
  function ArtistLinksOf(artists: seq<ArtistRef>): (links: seq<string>)
    ensures |links| == |artists|
    ensures forall k :: 0 <= k < |artists| ==> links[k] == artists[k].spotifyURL
  {
    if artists == [] then [] else [artists[0].spotifyURL] + ArtistLinksOf(artists[1..])
  }

  /**
   * The fields of a track's record: its id, name, explicit flag and link;
   * its album's name, type and release date; names and links of all its
   * artists in order; the first artist's id, genres and popularity; the
   * formatted popularity and duration; and the first album image.
   */
  lemma TrackRecordFields(t: ApiTrack, artistInfo: map<string, ArtistInfo>)
    requires TrackRecord(t, artistInfo).Ok?
    ensures
      var info, first := TrackRecord(t, artistInfo).value, artistInfo[t.artists[0].id];
      info.id == t.id && info.trackName == t.name && info.trackExplicit == t.explicit &&
      info.albumName == t.album.name && info.albumType == t.album.albumType &&
      info.albumReleaseDate == t.album.releaseDate && info.spotifyURL == t.spotifyURL &&
      info.artistNames.NameList? && |info.artistNames.names| == |t.artists| && |info.artistLinks| == |t.artists| &&
      (forall k :: 0 <= k < |t.artists| ==>
        info.artistNames.names[k] == t.artists[k].name && info.artistLinks[k] == t.artists[k].spotifyURL) &&
      info.artistID == t.artists[0].id && info.artistGenres == first.genres &&
      info.artistPopularity == PopularityText(first.popularity) &&
      info.trackPopularity == PopularityText(t.popularity) && info.trackDurationMs == DurationText(t.durationMs) &&
      info.albumCoverURL == t.album.imageURLs[0]
  {
  }

  /** The record of each track, as a step that may raise. */
  function RecordStep(artistInfo: map<string, ArtistInfo>): ApiTrack -> Result<TrackInfo>
  {
    t => TrackRecord(t, artistInfo)
  }

  /**
   * The table of track records: one record per track, in response order
   * and without deduplication, or the error of the first track that fails.
   */
  function TrackInfoRows(tracks: seq<ApiTrack>, artistInfo: map<string, ArtistInfo>): (r: Result<seq<TrackInfo>>)
    ensures r.Ok? ==> |r.value| == |tracks|
  {
    Collect(tracks, RecordStep(artistInfo))
  }

  /** The table succeeds exactly when every track's record does. */
  lemma TrackInfoRowsOk(tracks: seq<ApiTrack>, artistInfo: map<string, ArtistInfo>)
    ensures TrackInfoRows(tracks, artistInfo).Ok? <==>
      forall k :: 0 <= k < |tracks| ==> TrackRecord(tracks[k], artistInfo).Ok?
  {
    CollectOk(tracks, RecordStep(artistInfo));
  }

  /** A table that succeeds holds the tracks' records in track order. */
  lemma TrackInfoRowsRecords(tracks: seq<ApiTrack>, artistInfo: map<string, ArtistInfo>)
    requires TrackInfoRows(tracks, artistInfo).Ok?
    ensures forall k :: 0 <= k < |tracks| ==>
      TrackRecord(tracks[k], artistInfo) == Ok(TrackInfoRows(tracks, artistInfo).value[k])
  {
    CollectValues(tracks, RecordStep(artistInfo));
  }

  /** The table's error is the error of the first track whose record fails. */
  lemma FirstFailingRecord(tracks: seq<ApiTrack>, artistInfo: map<string, ArtistInfo>, i: nat)
    requires i < |tracks| && TrackRecord(tracks[i], artistInfo).Err?
    requires TrackInfoRows(tracks[..i], artistInfo).Ok?
    ensures TrackInfoRows(tracks, artistInfo) == Err(TrackRecord(tracks[i], artistInfo).error)
  {
    CollectFirstError(tracks, RecordStep(artistInfo), i);
  }

  /** createTrackInfoDataFrame, over the track and artist responses. */
  method CreateTrackInfoDataFrame(tracks: seq<ApiTrack>, artists: seq<ApiArtist>) returns (r: Result<seq<TrackInfo>>)
    ensures r == TrackInfoRows(tracks, ArtistInfoDict(artists))
  {
    var record := RecordStep(ArtistInfoDict(artists));
    var data: seq<TrackInfo> := [];
    var i := 0;
    while i < |tracks|
      invariant 0 <= i <= |tracks|
      invariant Collect(tracks[..i], record) == Ok(data)
    {
      var trackData := record(tracks[i]);
      if trackData.Err? {
        CollectFirstError(tracks, record, i);
        return Err(trackData.error);
      }
      CollectPrefixStep(tracks, i, record);
      data := data + [trackData.value];
      i := i + 1;
    }
    assert tracks[..i] == tracks;
    r := Ok(data);
  }

  /**
   * When every track has an artist and an album image, and the artist
   * response covers every first artist, every track yields its record.
   */
  lemma {:induction false} CompleteResponseBuilds(tracks: seq<ApiTrack>, artists: seq<ApiArtist>)
    requires forall t :: t in tracks ==> t.artists != [] && t.album.imageURLs != []
    requires forall t :: t in tracks ==> exists a :: a in artists && a.id == t.artists[0].id
    ensures TrackInfoRows(tracks, ArtistInfoDict(artists)).Ok?
    ensures |TrackInfoRows(tracks, ArtistInfoDict(artists)).value| == |tracks|
  {
    var d := ArtistInfoDict(artists);
    TrackInfoRowsOk(tracks, d);
    forall k | 0 <= k < |tracks|
      ensures TrackRecord(tracks[k], d).Ok?
    {
      assert tracks[k] in tracks;
      var a :| a in artists && a.id == tracks[k].artists[0].id;
      var i :| 0 <= i < |artists| && artists[i] == a;
      ArtistIdsMembers(artists, a.id);
    }
  }

  // ---------------------------------------------------------------------
  // Library flags and the audio-feature merge (addColumnsToDF)
  // ---------------------------------------------------------------------

  /** A track-info row with its "inLibrary" column. */
  datatype Listed = Listed(info: TrackInfo, inLibrary: bool)

  /** A row of the gene table: track info, library flag, audio features and gene. */
  datatype Track = Track(info: TrackInfo, inLibrary: bool, features: AudioFeatures, gene: string)

  /**
   * `df["inLibrary"] = flags`. A table built from no records has no columns,
   * so reading its "id" column fails; a flag list of the wrong length is refused.
   */
  function WithLibraryFlags(df: seq<TrackInfo>, flags: seq<bool>): (r: Result<seq<Listed>>)
    ensures df == [] ==> r == Err(KeyError("id"))
    ensures df != [] && |flags| != |df| ==> r.Err? && r.error.ValueError?
    ensures r.Ok? <==> df != [] && |flags| == |df|
    ensures r.Ok? ==> |r.value| == |df| && forall i :: 0 <= i < |df| ==> r.value[i] == Listed(df[i], flags[i])
  {
    if df == [] then Err(KeyError("id"))
    else if |flags| != |df| then Err(ValueError("Length of values does not match length of index"))
    else Ok(seq(|df|, i requires 0 <= i < |df| => Listed(df[i], flags[i])))
  }

  function ListedId(l: Listed): string { l.info.id }

  function FeatureId(f: AudioFeatures): string { f.id }

  /** A row whose gene is the classifier applied to its own features. */
  predicate GeneConsistent(t: Track)
  {
    t.gene == CalculateGene(InputsOf(t.features))
  }

  function GeneRow(l: Listed, f: AudioFeatures): Track
  {
    Track(l.info, l.inLibrary, f, CalculateGene(InputsOf(f)))
  }

  /** addGeneColumn: every row gains the gene of its own features; nothing else changes. */
  function AddGeneColumn(joined: seq<(Listed, AudioFeatures)>): (r: seq<Track>)
    ensures |r| == |joined|
    ensures forall i :: 0 <= i < |r| ==>
      r[i].info == joined[i].0.info && r[i].inLibrary == joined[i].0.inLibrary &&
      r[i].features == joined[i].1 && GeneConsistent(r[i])
  {
    seq(|joined|, i requires 0 <= i < |joined| => GeneRow(joined[i].0, joined[i].1))
  }

  /**
   * `pd.merge(df, features, on="id")` followed by addGeneColumn: a row is
   * kept for every pair of a track row and a feature row with the same id,
   * and only for those; each kept row carries its own gene.
   */
  function MergedRows(df: seq<Listed>, features: seq<AudioFeatures>): (r: seq<Track>)
    ensures forall t :: t in r ==>
      GeneConsistent(t) && t.info.id == t.features.id && Listed(t.info, t.inLibrary) in df && t.features in features
    ensures forall l, f :: l in df && f in features && l.info.id == f.id ==> GeneRow(l, f) in r
    ensures |r| == JoinSize(df, features, ListedId, FeatureId)
  {
    var joined := InnerJoin(df, features, ListedId, FeatureId);
    var r := AddGeneColumn(joined);
    InnerJoinSize(df, features, ListedId, FeatureId);
    forall t | t in r
      ensures GeneConsistent(t) && t.info.id == t.features.id && Listed(t.info, t.inLibrary) in df && t.features in features
    {
      var i :| 0 <= i < |r| && r[i] == t;
      assert joined[i] in joined;
      assert Listed(t.info, t.inLibrary) == joined[i].0;
    }
    forall l, f | l in df && f in features && l.info.id == f.id
      ensures GeneRow(l, f) in r
    {
      assert (l, f) in joined;
      var i :| 0 <= i < |joined| && joined[i] == (l, f);
      assert r[i] == GeneRow(l, f);
    }
    r
  }

  /**
   * mergeAudioFeatures' table: an empty feature list makes a frame without
   * an "id" column, which the merge refuses.
   */
  function Merge(df: seq<Listed>, features: seq<AudioFeatures>): (r: Result<seq<Track>>)
    ensures features == [] ==> r == Err(KeyError("id"))
    ensures features != [] ==> r == Ok(MergedRows(df, features))
  {
    if features == [] then Err(KeyError("id")) else Ok(MergedRows(df, features))
  }

  /** addColumnsToDF: the library flags, then the merge. */
  function AddColumns(df: seq<TrackInfo>, flags: seq<bool>, features: seq<AudioFeatures>): (r: Result<seq<Track>>)
    ensures r.Ok? <==> df != [] && |flags| == |df| && features != []
    ensures WithLibraryFlags(df, flags).Err? ==> r == Err(WithLibraryFlags(df, flags).error)
    ensures r.Ok? ==> forall t :: t in r.value ==>
      GeneConsistent(t) && t.features in features && t.info.id == t.features.id &&
      exists i :: 0 <= i < |df| && df[i] == t.info && flags[i] == t.inLibrary
    ensures r.Ok? ==> forall i, f :: 0 <= i < |df| && f in features && df[i].id == f.id ==>
      GeneRow(Listed(df[i], flags[i]), f) in r.value
    ensures r.Ok? ==> |r.value| == JoinSize(WithLibraryFlags(df, flags).value, features, ListedId, FeatureId)
  {
    match WithLibraryFlags(df, flags)
    case Err(e) => Err(e)
    case Ok(listed) =>
      var r := Merge(listed, features);
      if r.Ok? then
        assert forall t :: t in r.value ==> Listed(t.info, t.inLibrary) in listed;
        assert forall l :: l in listed ==> exists i :: 0 <= i < |df| && listed[i] == l;
        r
      else r
  }

  /**
   * A track listed `a` times whose features were returned `b` times ends up
   * in `a * b` rows: the merge pairs every copy with every copy.
   */
  lemma {:induction false} MergeMultiplies(l: Listed, f: AudioFeatures, a: nat, b: nat)
    requires l.info.id == f.id
    ensures |MergedRows(Copies(l, a), Copies(f, b))| == a * b
  {
    CountCopies(f, b);
    JoinSizeCopies(l, Copies(f, b), a, b);
  }

  /** `n` copies of `x`. */
  function Copies<T>(x: T, n: nat): (s: seq<T>)
    ensures |s| == n
  {
    if n == 0 then [] else [x] + Copies(x, n - 1)
  }

  lemma {:induction false} CountCopies(f: AudioFeatures, b: nat)
    ensures Count(Column(Copies(f, b), FeatureId), f.id) == b
  {
    if b > 0 {
      CountCopies(f, b - 1);
      assert Column(Copies(f, b), FeatureId) == [f.id] + Column(Copies(f, b - 1), FeatureId);
    }
  }

  lemma {:induction false} JoinSizeCopies(l: Listed, fs: seq<AudioFeatures>, a: nat, b: nat)
    requires Count(Column(fs, FeatureId), l.info.id) == b
    ensures JoinSize(Copies(l, a), fs, ListedId, FeatureId) == a * b
  {
    if a > 0 {
      assert a * b == b + (a - 1) * b;
      var rest := Copies(l, a - 1);
      JoinSizeCopies(l, fs, a - 1, b);
      assert JoinSize(Copies(l, a), fs, ListedId, FeatureId) == b + JoinSize(rest, fs, ListedId, FeatureId) by {
        assert Copies(l, a)[0] == l && Copies(l, a)[1..] == rest;
      }
    }
  }

  // ---------------------------------------------------------------------
  // Readers of a gene table
  // ---------------------------------------------------------------------

  function GeneOf(t: Track): string { t.gene }

  function EnergyOf(t: Track): real { t.features.energy }

  function ModeOf(t: Track): real { t.features.mode }

  function TempoOf(t: Track): real { t.features.tempo }

  function AcousticnessOf(t: Track): real { t.features.acousticness }

  /**
   * getOverallGenes: the classifier applied to the column means. The mean
   * of an empty column is NaN and every comparison with NaN is false, so an
   * empty table gets "LNSA".
   */
  function GetOverallGenes(df: seq<Track>): (g: string)
    ensures IsGeneCode(g)
    ensures df == [] ==> g == "LNSA"
    ensures df != [] ==>
      var n := |df| as real;
      (g[0] == 'H' <==> Sum(Column(df, EnergyOf)) > 0.5 * n) &&
      (g[1] == 'P' <==> Sum(Column(df, ModeOf)) > 0.49 * n) &&
      (g[2] == 'F' <==> Sum(Column(df, TempoOf)) > 100.0 * n) &&
      (g[3] == 'E' <==> Sum(Column(df, AcousticnessOf)) < 0.5 * n)
  {
    if df == [] then "LNSA"
    else
      var energy, mode, tempo, acousticness :=
        Column(df, EnergyOf), Column(df, ModeOf), Column(df, TempoOf), Column(df, AcousticnessOf);
      MeanCompared(energy, 0.5);
      MeanCompared(mode, 0.49);
      MeanCompared(tempo, 100.0);
      MeanCompared(acousticness, 0.5);
      CalculateGene(GeneInputs(Mean(energy), Mean(mode), Mean(tempo), Mean(acousticness)))
  }

  /** Every value above `c` puts the sum above `c` times the count; likewise below. */
  lemma {:induction false} SumStrict(xs: seq<real>, c: real)
    requires xs != []
    ensures (forall i :: 0 <= i < |xs| ==> xs[i] > c) ==> Sum(xs) > c * |xs| as real
    ensures (forall i :: 0 <= i < |xs| ==> xs[i] < c) ==> Sum(xs) < c * |xs| as real
  {
    var tail := xs[1..];
    assert c * |xs| as real == c + c * |tail| as real by {
      assert |xs| as real == 1.0 + |tail| as real;
    }
    assert forall i :: 0 <= i < |tail| ==> tail[i] == xs[i + 1];
    if |xs| > 1 {
      SumStrict(tail, c);
    }
  }

  /** The non-strict companion of SumStrict. */
  lemma {:induction false} SumWeak(xs: seq<real>, c: real)
    ensures (forall i :: 0 <= i < |xs| ==> xs[i] >= c) ==> Sum(xs) >= c * |xs| as real
    ensures (forall i :: 0 <= i < |xs| ==> xs[i] <= c) ==> Sum(xs) <= c * |xs| as real
  {
    if xs != [] {
      var tail := xs[1..];
      assert c * |xs| as real == c + c * |tail| as real by {
        assert |xs| as real == 1.0 + |tail| as real;
      }
      assert forall i :: 0 <= i < |tail| ==> tail[i] == xs[i + 1];
      SumWeak(tail, c);
    }
  }

  /** When all values lie on one side of `c > x`, so does the sum against `c` times the count. */
  lemma AxisAbove(xs: seq<real>, c: real, b: bool)
    requires xs != []
    requires forall i :: 0 <= i < |xs| ==> (xs[i] > c <==> b)
    ensures Sum(xs) > c * |xs| as real <==> b
  {
    SumStrict(xs, c);
    SumWeak(xs, c);
  }

  lemma AxisBelow(xs: seq<real>, c: real, b: bool)
    requires xs != []
    requires forall i :: 0 <= i < |xs| ==> (xs[i] < c <==> b)
    ensures Sum(xs) < c * |xs| as real <==> b
  {
    SumStrict(xs, c);
    SumWeak(xs, c);
  }

  /** The sides of the thresholds a row with gene `g` lies on. */
  lemma RowSides(t: Track, g: string)
    requires GeneConsistent(t) && t.gene == g
    ensures IsGeneCode(g)
    ensures (t.features.energy > 0.5 <==> g[0] == 'H') && (t.features.mode > 0.49 <==> g[1] == 'P')
    ensures (t.features.tempo > 100.0 <==> g[2] == 'F') && (t.features.acousticness < 0.5 <==> g[3] == 'E')
  {
  }

  /** Two gene codes that agree on each letter's first choice are equal. */
  lemma SameChoicesSameCode(g: string, h: string)
    requires IsGeneCode(g) && IsGeneCode(h)
    requires (g[0] == 'H' <==> h[0] == 'H') && (g[1] == 'P' <==> h[1] == 'P')
    requires (g[2] == 'F' <==> h[2] == 'F') && (g[3] == 'E' <==> h[3] == 'E')
    ensures g == h
  {
    assert g[0] == h[0] && g[1] == h[1] && g[2] == h[2] && g[3] == h[3];
  }

  /** When every track carries gene `g`, each column's sum lies on the side of its threshold `g` names. */
  lemma UnanimousSums(df: seq<Track>, g: string)
    requires df != []
    requires forall i :: 0 <= i < |df| ==> GeneConsistent(df[i]) && df[i].gene == g
    ensures |g| == 4
    ensures var n := |df| as real;
      (Sum(Column(df, EnergyOf)) > 0.5 * n <==> g[0] == 'H') &&
      (Sum(Column(df, ModeOf)) > 0.49 * n <==> g[1] == 'P') &&
      (Sum(Column(df, TempoOf)) > 100.0 * n <==> g[2] == 'F') &&
      (Sum(Column(df, AcousticnessOf)) < 0.5 * n <==> g[3] == 'E')
  {
    RowSides(df[0], g);
    var energy, mode, tempo, acousticness :=
      Column(df, EnergyOf), Column(df, ModeOf), Column(df, TempoOf), Column(df, AcousticnessOf);
    forall i | 0 <= i < |df|
      ensures (energy[i] > 0.5 <==> g[0] == 'H') && (mode[i] > 0.49 <==> g[1] == 'P')
      ensures (tempo[i] > 100.0 <==> g[2] == 'F') && (acousticness[i] < 0.5 <==> g[3] == 'E')
    {
      RowSides(df[i], g);
    }
    AxisAbove(energy, 0.5, g[0] == 'H');
    AxisAbove(mode, 0.49, g[1] == 'P');
    AxisAbove(tempo, 100.0, g[2] == 'F');
    AxisBelow(acousticness, 0.5, g[3] == 'E');
  }

  /** A table whose tracks all carry the same gene has that gene overall. */
  lemma {:induction false} UnanimousTableKeepsGene(df: seq<Track>, g: string)
    requires df != []
    requires forall i :: 0 <= i < |df| ==> GeneConsistent(df[i]) && df[i].gene == g
    ensures GetOverallGenes(df) == g
  {
    RowSides(df[0], g);
    UnanimousSums(df, g);
    SameChoicesSameCode(GetOverallGenes(df), g);
  }

  /** `g` is the key of some entry of `r`. */
  predicate HasKey<V>(r: seq<(string, V)>, g: string)
  {
    exists i :: 0 <= i < |r| && r[i].0 == g
  }

  /**
   * getGeneCounts: each gene's share of the rows, in percent, most frequent
   * first; every listed gene occurs, every occurring gene is listed, and
   * over a non-empty table the shares add up to 100.
   */
  function GetGeneCounts(df: seq<Track>): (r: seq<(string, real)>)
    ensures df == [] ==> r == []
    ensures forall i :: 0 <= i < |r| ==> r[i].1 == Share(Count(Column(df, GeneOf), r[i].0), |df|) && r[i].1 > 0.0
    ensures forall i, j :: 0 <= i < j < |r| ==> r[i].0 != r[j].0 && r[i].1 >= r[j].1
    ensures forall i :: 0 <= i < |r| ==> r[i].0 in Column(df, GeneOf)
    ensures forall k :: 0 <= k < |df| ==> HasKey(r, df[k].gene)
    ensures df != [] ==> SumShares(r) == 100.0
  {
    var col := Column(df, GeneOf);
    var r := Shares(col);
    forall k | 0 <= k < |df|
      ensures HasKey(r, df[k].gene)
    {
      assert col[k] == df[k].gene;
    }
    r
  }

  /** getExamplesByGene: exactly the rows of one gene, in table order. */
  function GetExamplesByGene(df: seq<Track>, gene: string): (r: seq<Track>)
    ensures IsSubsequence(r, df)
    ensures forall t :: t in r ==> t.gene == gene
    ensures forall t :: t in df && t.gene == gene ==> t in r
    ensures |r| == Count(Column(df, GeneOf), gene)
  {
    SelectEqSound(df, GeneOf, gene);
    SelectEq(df, GeneOf, gene)
  }

  /** One row of an examples table: a track name, its first artist and a tag. */
  datatype GeneExample = GeneExample(name: string, artist: string, tag: Label)

  /** `e` names track `t`, with its first artist. */
  predicate ExampleOf(e: GeneExample, t: Track, tag: Label)
  {
    e.name == t.info.trackName && t.info.artistNames.names != [] &&
    e.artist == t.info.artistNames.names[0] && e.tag == tag
  }

  /**
   * Each row's name and first artist under a tag. Taking the first
   * artist of an empty artist list is an index error.
   */
  function ExampleRows(rows: seq<Track>, tag: Label): (r: Result<seq<GeneExample>>)
    ensures r.Ok? <==> forall i :: 0 <= i < |rows| ==> rows[i].info.artistNames.names != []
    ensures r.Err? ==> r.error == IndexError
    ensures r.Ok? ==> |r.value| == |rows| && forall i :: 0 <= i < |rows| ==> ExampleOf(r.value[i], rows[i], tag)
  {
    if rows == [] then Ok([])
    else
      var t := rows[0];
      assert forall i :: 1 <= i < |rows| ==> rows[i] == rows[1..][i - 1];
      if t.info.artistNames.names == [] then Err(IndexError)
      else
        match ExampleRows(rows[1..], tag)
        case Err(e) => Err(e)
        case Ok(rest) => Ok([GeneExample(t.info.trackName, t.info.artistNames.names[0], tag)] + rest)
  }

  /** The value of a feature column, as a metric on gene-table rows. */
  function TraitMetric(c: FeatureColumn): Track -> real
  {
    (t: Track) => FeatureValue(t.features, c)
  }

  /**
   * getGeneExamples, reading the name and artist columns a gene table has:
   * the three rows with the largest value of the trait's column, largest
   * first, labelled "Top", then the first row with the smallest value,
   * labelled "Contrary". An unknown trait is a key error.
   */
  function GetGeneExamples(df: seq<Track>, traitName: string): (r: Result<seq<GeneExample>>)
    ensures TraitColumn(traitName).None? ==> r == Err(KeyError(traitName))
    ensures TraitColumn(traitName).Some? ==>
      var m := TraitColumn(traitName).value;
      var top, low := NLargest(df, 3, TraitMetric(m)), NSmallestOne(df, TraitMetric(m));
      (r.Ok? <==> forall t :: t in top + low ==> t.info.artistNames.names != []) &&
      (r.Ok? ==>
        |r.value| == |top| + |low| &&
        (forall i :: 0 <= i < |top| ==> ExampleOf(r.value[i], top[i], Top)) &&
        (forall i :: 0 <= i < |low| ==> ExampleOf(r.value[|top| + i], low[i], Contrary)))
  {
    match TraitColumn(traitName)
    case None => Err(KeyError(traitName))
    case Some(m) =>
      var top, low := NLargest(df, 3, TraitMetric(m)), NSmallestOne(df, TraitMetric(m));
      assert forall t :: t in top + low <==> t in top || t in low;
      match ExampleRows(top, Top)
      case Err(e) => Err(e)
      case Ok(topExamples) =>
        match ExampleRows(low, Contrary)
        case Err(e) => Err(e)
        case Ok(contraryExample) => Ok(topExamples + contraryExample)
  }

  /**
   * getGeneExamples as written: after looking the trait up it selects the
   * columns "name" and "artists", which a gene table does not have (its
   * columns are "trackName" and "artistNames"), so every known trait ends
   * in a key error.
   */
  function GetGeneExamplesAsWritten(df: seq<Track>, traitName: string): (r: Result<seq<GeneExample>>)
    ensures r.Err?
    ensures TraitColumn(traitName).None? ==> r == GetGeneExamples(df, traitName)
    ensures TraitColumn(traitName).Some? ==> r.error.KeyError?
  {
    match TraitColumn(traitName)
    case None => Err(KeyError(traitName))
    case Some(_) => Err(KeyError(NoneInColumns(["name", "artists"])))
  }

  /** A one-track table on which the corrected reader answers and the written one fails. */
  lemma GeneExamplesCounterexample(t: Track)
    requires t.info.artistNames.names != []
    ensures GetGeneExamplesAsWritten([t], "energy").Err?
    ensures var r := GetGeneExamples([t], "energy");
      r.Ok? && |r.value| == 2 && ExampleOf(r.value[0], t, Top) && ExampleOf(r.value[1], t, Contrary)
  {
    var top, low := NLargest([t], 3, TraitMetric(Energy)), NSmallestOne([t], TraitMetric(Energy));
    assert top == [t] by {
      assert |top| == 1 && multiset(top) <= multiset([t]);
      assert top[0] in multiset([t]);
    }
    assert low == [t];
  }

  /**
   * getGeneDataFromDF: one entry per distinct gene, in order of first
   * appearance, with the number of rows that carry it.
   */
  method GetGeneDataFromDF(df: seq<Track>) returns (data: seq<ValueCount<string>>)
    ensures data == Tally(Column(df, GeneOf))
    ensures forall i :: 0 <= i < |data| ==> data[i].count > 0
    ensures forall i, j :: 0 <= i < j < |data| ==> data[i].value != data[j].value
    ensures forall k :: 0 <= k < |df| ==> exists i :: 0 <= i < |data| && data[i].value == df[k].gene
    ensures SumCount(data) == |df|
    ensures forall i, j :: 0 <= i < j < |data| ==> FirstPos(df, GeneOf, data[i].value) < FirstPos(df, GeneOf, data[j].value)
  {
    var col := Column(df, GeneOf);
    var genes := Unique(col);
    data := [];
    var i := 0;
    while i < |genes|
      invariant 0 <= i <= |genes|
      invariant data == TallyOf(genes[..i], col)
    {
      var gene := genes[i];
      var count := |SelectEq(df, GeneOf, gene)|;
      TallyRowStep(df, GeneOf, genes, i);
      data := data + [ValueCount(gene, count)];
      i := i + 1;
    }
    assert genes[..|genes|] == genes;
    TallyOfRows(df, GeneOf);
    TallyOfRowsOrder(df, GeneOf);
  }

  // ---------------------------------------------------------------------
  // Recommendation seeds
  // ---------------------------------------------------------------------

  function Min(a: int, b: int): int { if a < b then a else b }

  /**
   * `Series.sample(n=min(2, n))` over `n` rows: some distinct positions,
   * as many as the bound allows. Which ones is left open.
   */
  method SampleRows(n: nat) returns (picks: seq<nat>)
    ensures |picks| == Min(2, n)
    ensures forall k :: 0 <= k < |picks| ==> picks[k] < n
    ensures forall a, b :: 0 <= a < b < |picks| ==> picks[a] != picks[b]
  {
    if n == 0 {
      picks := [];
    } else if n == 1 {
      picks := [0];
    } else {
      assert 0 < n && 1 < n;
      var i: nat, j: nat :| i < n && j < n && i != j;
      picks := [i, j];
    }
  }

  /** `seeds` is `field` read from the rows at the distinct positions `picks`. */
  predicate DrawnWith(seeds: seq<string>, rows: seq<Track>, field: Track -> string, picks: seq<nat>)
  {
    |picks| == |seeds| &&
    (forall k :: 0 <= k < |picks| ==> picks[k] < |rows| && seeds[k] == field(rows[picks[k]])) &&
    forall a, b :: 0 <= a < b < |picks| ==> picks[a] != picks[b]
  }

  /** `seeds` is `field` read from some distinct rows. */
  ghost predicate DrawnFrom(seeds: seq<string>, rows: seq<Track>, field: Track -> string)
  {
    exists picks :: DrawnWith(seeds, rows, field, picks)
  }

  function ArtistIdOf(t: Track): string { t.info.artistID }

  function TrackIdOf(t: Track): string { t.info.id }

  /** Read `field` at each position of `picks`. */
  function Pick(rows: seq<Track>, picks: seq<nat>, field: Track -> string): (seeds: seq<string>)
    requires forall k :: 0 <= k < |picks| ==> picks[k] < |rows|
    ensures |seeds| == |picks| && forall k :: 0 <= k < |picks| ==> seeds[k] == field(rows[picks[k]])
  {
    seq(|picks|, k requires 0 <= k < |picks| => field(rows[picks[k]]))
  }

  /** All genres of the seed artists, in order; `artistGenres` stands for the artist lookup. */
  function GenrePool(seedArtists: seq<string>, artistGenres: string -> seq<string>): seq<string>
  {
    if seedArtists == [] then [] else artistGenres(seedArtists[0]) + GenrePool(seedArtists[1..], artistGenres)
  }

  /** The arguments of the recommendations request. */
  datatype RecommendationRequest = RecommendationRequest(seedArtists: seq<string>, seedTracks: seq<string>, limit: int)

  /**
   * The answers of the catalog service about a list of tracks: the track
   * objects, the artist objects of their artists, whether each track is in
   * the user's library, and the tracks' audio features.
   */
  datatype CatalogResponse = CatalogResponse(
    tracks: seq<ApiTrack>,
    artists: seq<ApiArtist>,
    inLibrary: seq<bool>,
    features: seq<AudioFeatures>)

  /** The track records a response yields (createTrackInfoDataFrame). */
  function Records(resp: CatalogResponse): Result<seq<TrackInfo>>
  {
    TrackInfoRows(resp.tracks, ArtistInfoDict(resp.artists))
  }

  // ---------------------------------------------------------------------
  // The user's tables
  // ---------------------------------------------------------------------

  /**
   * A table field: not yet loaded (None), track records only, records with
   * their library flags, or the full gene table.
   */
  datatype Table = Unset | Info(rows: seq<TrackInfo>) | Flagged(listed: seq<Listed>) | Enriched(tracks: seq<Track>)

  /**
   * What a table of records looks like after addColumnsToDF failed on it:
   * the library flags were written into it in place unless writing them
   * was what failed.
   */
  function AfterFailedAdd(rows: seq<TrackInfo>, flags: seq<bool>): Table
  {
    match WithLibraryFlags(rows, flags)
    case Ok(listed) => Flagged(listed)
    case Err(_) => Info(rows)
  }

  /** A card of the recently-played list. */
  datatype Card = Card(name: string, artist: string, imageURL: string, url: string, gene: string, isInLibrary: bool)

  function ToCard(t: Track): Card
  {
    Card(t.info.trackName, JoinStrings(t.info.artistNames.names, ", "), t.info.albumCoverURL, t.info.spotifyURL, t.gene, t.inLibrary)
  }

  /** The deduplication key of the card list. */
  function CardKey(t: Track): (string, ArtistNames)
  {
    (t.info.trackName, t.info.artistNames)
  }

  const CardColumns: seq<string> := ["trackName", "artistNames", "albumCoverURL", "spotifyURL", "gene", "inLibrary"]

  class UserGenes {
    var recentTracksDF: Table
    var topTracksDF: Table
    var audioFeaturesDF: Option<seq<AudioFeatures>>
    var readableGenes: Option<seq<Track>>

    /** A user whose tables are not loaded yet. */
    constructor ()
      ensures recentTracksDF == Unset && topTracksDF == Unset
      ensures audioFeaturesDF == None && readableGenes == None
    {
      recentTracksDF := Unset;
      topTracksDF := Unset;
      audioFeaturesDF := None;
      readableGenes := None;
    }

    /** mergeAudioFeatures: remembers the feature list, then merges it into the table. */
    method MergeAudioFeatures(df: seq<Listed>, features: seq<AudioFeatures>) returns (r: Result<seq<Track>>)
      modifies this`audioFeaturesDF
      ensures audioFeaturesDF == Some(features)
      ensures r == Merge(df, features)
    {
      audioFeaturesDF := Some(features);
      r := Merge(df, features);
    }

    /** addColumnsToDF: the library flags, then mergeAudioFeatures. */
    method AddColumnsToDF(df: seq<TrackInfo>, flags: seq<bool>, features: seq<AudioFeatures>) returns (r: Result<seq<Track>>)
      modifies this`audioFeaturesDF
      ensures r == AddColumns(df, flags, features)
      ensures audioFeaturesDF == if WithLibraryFlags(df, flags).Ok? then Some(features) else old(audioFeaturesDF)
    {
      var listed := WithLibraryFlags(df, flags);
      if listed.Err? {
        return Err(listed.error);
      }
      r := MergeAudioFeatures(listed.value, features);
    }

    /**
     * initTracksDF: builds the recently-played table, then the top table,
     * then completes each with addColumnsToDF. A failing step leaves the
     * fields as the earlier steps set them.
     */
    method InitTracksDF(recent: CatalogResponse, top: CatalogResponse) returns (err: Option<Error>)
      modifies this`recentTracksDF, this`topTracksDF, this`audioFeaturesDF
      ensures Records(recent).Err? ==>
        err == Some(Records(recent).error) && recentTracksDF == old(recentTracksDF) &&
        topTracksDF == old(topTracksDF) && audioFeaturesDF == old(audioFeaturesDF)
      ensures Records(recent).Ok? && Records(top).Err? ==>
        err == Some(Records(top).error) && recentTracksDF == Info(Records(recent).value) &&
        topTracksDF == old(topTracksDF) && audioFeaturesDF == old(audioFeaturesDF)
      ensures Records(recent).Ok? && Records(top).Ok? ==>
        var rows, topRows := Records(recent).value, Records(top).value;
        var added := AddColumns(rows, recent.inLibrary, recent.features);
        var topAdded := AddColumns(topRows, top.inLibrary, top.features);
        var recentFlagged := WithLibraryFlags(rows, recent.inLibrary).Ok?;
        var topFlagged := WithLibraryFlags(topRows, top.inLibrary).Ok?;
        if added.Err? then
          err == Some(added.error) && recentTracksDF == AfterFailedAdd(rows, recent.inLibrary) &&
          topTracksDF == Info(topRows) &&
          audioFeaturesDF == (if recentFlagged then Some(recent.features) else old(audioFeaturesDF))
        else if topAdded.Err? then
          err == Some(topAdded.error) && recentTracksDF == Enriched(added.value) &&
          topTracksDF == AfterFailedAdd(topRows, top.inLibrary) &&
          audioFeaturesDF == (if topFlagged then Some(top.features) else Some(recent.features))
        else
          err == None && recentTracksDF == Enriched(added.value) && topTracksDF == Enriched(topAdded.value) &&
          audioFeaturesDF == Some(top.features)
    {
      var recentRows := CreateTrackInfoDataFrame(recent.tracks, recent.artists);
      if recentRows.Err? {
        return Some(recentRows.error);
      }
      recentTracksDF := Info(recentRows.value);
      var topRows := CreateTrackInfoDataFrame(top.tracks, top.artists);
      if topRows.Err? {
        return Some(topRows.error);
      }
      topTracksDF := Info(topRows.value);

      var added := AddColumnsToDF(recentRows.value, recent.inLibrary, recent.features);
      if added.Err? {
        recentTracksDF := AfterFailedAdd(recentRows.value, recent.inLibrary);
        return Some(added.error);
      }
      recentTracksDF := Enriched(added.value);
      added := AddColumnsToDF(topRows.value, top.inLibrary, top.features);
      if added.Err? {
        topTracksDF := AfterFailedAdd(topRows.value, top.inLibrary);
        return Some(added.error);
      }
      topTracksDF := Enriched(added.value);
      err := None;
    }

    /**
     * getRecommendationsByGene: refuses a missing gene; remembers the rows
     * of the gene in readableGenes; returns nothing when there are none;
     * otherwise draws up to two seed artists and up to two seed tracks from
     * distinct matching rows, asks for recommendations and builds their
     * gene table. `artistGenres` stands for the per-artist genre lookup,
     * `recommended` for the tracks the service recommends and `rec` for its
     * answers about those tracks.
     */
    method GetRecommendationsByGene(
      df: seq<Track>, seedGenre: Option<string>, limit: int, artistGenres: string -> seq<string>,
      recommended: seq<ApiTrack>, rec: CatalogResponse)
      returns (r: Result<seq<Track>>, seedArtists: seq<string>, request: Option<RecommendationRequest>)
      modifies this`readableGenes, this`audioFeaturesDF
      ensures seedGenre.None? ==>
        r == Err(ValueError("A seed genre must be provided.")) && seedArtists == [] && request == None &&
        readableGenes == old(readableGenes) && audioFeaturesDF == old(audioFeaturesDF)
      ensures seedGenre.Some? ==> readableGenes == Some(GetExamplesByGene(df, seedGenre.value))
      ensures seedGenre.Some? && GetExamplesByGene(df, seedGenre.value) == [] ==>
        r == Ok([]) && seedArtists == [] && request == None && audioFeaturesDF == old(audioFeaturesDF)
      ensures seedGenre.Some? && GetExamplesByGene(df, seedGenre.value) != [] ==>
        var matches := GetExamplesByGene(df, seedGenre.value);
        |seedArtists| == Min(2, |matches|) && DrawnFrom(seedArtists, matches, ArtistIdOf) &&
        if |GenrePool(seedArtists, artistGenres)| < Min(1, |seedGenre.value|) then
          r.Err? && r.error.ValueError? && request == None && audioFeaturesDF == old(audioFeaturesDF)
        else
          request.Some? && request.value.seedArtists == seedArtists && request.value.limit == limit &&
          |request.value.seedTracks| == Min(2, |matches|) && DrawnFrom(request.value.seedTracks, matches, TrackIdOf) &&
          if recommended == [] then
            r == Err(KeyError("id")) && audioFeaturesDF == old(audioFeaturesDF)
          else if Records(rec).Err? then
            r == Err(Records(rec).error) && audioFeaturesDF == old(audioFeaturesDF)
          else
            r == AddColumns(Records(rec).value, rec.inLibrary, rec.features) &&
            audioFeaturesDF ==
              if WithLibraryFlags(Records(rec).value, rec.inLibrary).Ok? then Some(rec.features) else old(audioFeaturesDF)
    {
      seedArtists, request := [], None;
      if seedGenre.None? {
        return Err(ValueError("A seed genre must be provided.")), seedArtists, request;
      }
      var gene := seedGenre.value;
      var matches := GetExamplesByGene(df, gene);
      readableGenes := Some(matches);
      if matches == [] {
        return Ok([]), seedArtists, request;
      }

      var artistPicks := SampleRows(|matches|);
      seedArtists := Pick(matches, artistPicks, ArtistIdOf);
      assert DrawnWith(seedArtists, matches, ArtistIdOf, artistPicks);
      if |GenrePool(seedArtists, artistGenres)| < Min(1, |gene|) {
        return Err(ValueError("Cannot take a larger sample than population when 'replace=False'")), seedArtists, request;
      }
      var trackPicks := SampleRows(|matches|);
      var seedTracks := Pick(matches, trackPicks, TrackIdOf);
      assert DrawnWith(seedTracks, matches, TrackIdOf, trackPicks);
      request := Some(RecommendationRequest(seedArtists, seedTracks, limit));

      if recommended == [] {
        return Err(KeyError("id")), seedArtists, request;
      }
      var rows := CreateTrackInfoDataFrame(rec.tracks, rec.artists);
      if rows.Err? {
        return Err(rows.error), seedArtists, request;
      }
      r := AddColumnsToDF(rows.value, rec.inLibrary, rec.features);
    }

    /**
     * getRecentlyPlayedForCard: the recently-played rows, deduplicated on
     * track name and artist names (first occurrence kept), as cards. The
     * names must be hashable: a row whose artist names are still a list
     * makes the deduplication fail.
     */
    function GetRecentlyPlayedForCard(): (r: Result<seq<Card>>)
      reads this
      ensures recentTracksDF.Unset? ==> r == Err(NotSubscriptable)
      ensures recentTracksDF.Info? || recentTracksDF.Flagged? ==> r.Err? && r.error.KeyError?
      ensures recentTracksDF.Enriched? ==>
        (r.Ok? <==> forall t :: t in recentTracksDF.tracks ==> t.info.artistNames.NameTuple?)
      ensures r.Err? && recentTracksDF.Enriched? ==> r.error == TypeError("unhashable type: 'list'")
      ensures r.Ok? ==>
        var kept := KeepFirst(recentTracksDF.tracks, CardKey);
        |r.value| == |kept| && (forall i :: 0 <= i < |kept| ==> r.value[i] == ToCard(kept[i])) &&
        KeptFirst(kept, recentTracksDF.tracks, CardKey)
    {
      match recentTracksDF
      case Unset => Err(NotSubscriptable)
      case Info(rows) =>
        if rows == [] then Err(KeyError(NoneInColumns(CardColumns)))
        else Err(KeyError(NotInIndex(["gene", "inLibrary"])))
      case Flagged(_) => Err(KeyError(NotInIndex(["gene"])))
      case Enriched(tracks) => Cards(tracks)
    }
  }

  /**
   * The cards of a gene table: one per song, first occurrence kept, or the
   * hashing error when some row's artist names are still a list.
   */
  function Cards(tracks: seq<Track>): (r: Result<seq<Card>>)
    ensures r.Ok? <==> forall t :: t in tracks ==> t.info.artistNames.NameTuple?
    ensures r.Err? ==> r.error == TypeError("unhashable type: 'list'")
    ensures r.Ok? ==>
      var kept := KeepFirst(tracks, CardKey);
      |r.value| == |kept| && (forall i :: 0 <= i < |kept| ==> r.value[i] == ToCard(kept[i])) &&
      KeptFirst(kept, tracks, CardKey)
  {
    if exists t :: t in tracks && t.info.artistNames.NameList? then Err(TypeError("unhashable type: 'list'"))
    else
      var kept := KeepFirst(tracks, CardKey);
      KeepFirstKept(tracks, CardKey);
      Ok(seq(|kept|, i requires 0 <= i < |kept| => ToCard(kept[i])))
  }

  /** The message of a column selection some of whose columns are missing. */
  function NotInIndex(columns: seq<string>): string
  {
    "[" + JoinStrings(Quoted(columns), ", ") + "] not in index"
  }

  /** The message of a column selection none of whose columns exist. */
  function NoneInColumns(columns: seq<string>): string
  {
    "None of [Index([" + JoinStrings(Quoted(columns), ", ") + "], dtype='object')] are in the [columns]"
  }

  function Quoted(columns: seq<string>): seq<string>
  {
    seq(|columns|, i requires 0 <= i < |columns| => "'" + columns[i] + "'")
  }
}
