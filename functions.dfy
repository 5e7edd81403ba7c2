/**
 * The helpers the web front end calls: building a user, the card table of
 * recently played tracks, the fixed instructions for the summary model and
 * the table of tracks sent with them.
 */
module Functions {
  import opened Wrappers
  import opened Frame
  import opened Catalog
  import opened Genes

  /**
   * init_user: a new user whose tables are then built from the two catalog
   * responses; a failing step is raised to the caller.
   */
  method InitUser(recent: CatalogResponse, top: CatalogResponse) returns (user: UserGenes, err: Option<Error>)
    ensures fresh(user)
    ensures err.None? <==>
      Records(recent).Ok? && Records(top).Ok? &&
      AddColumns(Records(recent).value, recent.inLibrary, recent.features).Ok? &&
      AddColumns(Records(top).value, top.inLibrary, top.features).Ok?
    ensures err.None? ==>
      user.recentTracksDF == Enriched(AddColumns(Records(recent).value, recent.inLibrary, recent.features).value) &&
      user.topTracksDF == Enriched(AddColumns(Records(top).value, top.inLibrary, top.features).value) &&
      user.audioFeaturesDF == Some(top.features) && user.readableGenes == None
  {
    user := new UserGenes();
    err := user.InitTracksDF(recent, top);
  }

  // ---------------------------------------------------------------------
  // The selected table
  // ---------------------------------------------------------------------

  /** `apply(tuple)` on one artist-name cell: a list becomes a tuple of the same names. */
  function AsTuple(a: ArtistNames): (b: ArtistNames)
    ensures b.NameTuple? && b.names == a.names
  {
    NameTuple(a.names)
  }

  function TupleInfo(i: TrackInfo): TrackInfo
  {
    i.(artistNames := AsTuple(i.artistNames))
  }

  /**
   * The table after its "artistNames" column was replaced by tuples: the
   * same rows, each with its names as a tuple and nothing else changed.
   */
  function WithTupleNames(t: Table): (u: Table)
    requires !t.Unset?
    ensures t.Info? ==> u.Info? && |u.rows| == |t.rows| && forall i :: 0 <= i < |t.rows| ==>
      u.rows[i] == t.rows[i].(artistNames := NameTuple(t.rows[i].artistNames.names))
    ensures t.Flagged? ==> u.Flagged? && |u.listed| == |t.listed| && forall i :: 0 <= i < |t.listed| ==>
      u.listed[i] == t.listed[i].(info := t.listed[i].info.(artistNames := NameTuple(t.listed[i].info.artistNames.names)))
    ensures t.Enriched? ==> u.Enriched? && |u.tracks| == |t.tracks| && forall i :: 0 <= i < |t.tracks| ==>
      u.tracks[i] == t.tracks[i].(info := t.tracks[i].info.(artistNames := NameTuple(t.tracks[i].info.artistNames.names)))
  {
    match t
    case Info(rows) => Info(seq(|rows|, i requires 0 <= i < |rows| => TupleInfo(rows[i])))
    case Flagged(listed) =>
      Flagged(seq(|listed|, i requires 0 <= i < |listed| => listed[i].(info := TupleInfo(listed[i].info))))
    case Enriched(tracks) =>
      Enriched(seq(|tracks|, i requires 0 <= i < |tracks| => tracks[i].(info := TupleInfo(tracks[i].info))))
  }

  function InfoKey(i: TrackInfo): (string, ArtistNames) { (i.trackName, i.artistNames) }

  function ListedKey(l: Listed): (string, ArtistNames) { (l.info.trackName, l.info.artistNames) }

  /**
   * After the conversion, two rows share a deduplication key exactly when
   * they have the same track name and the same artist names, whichever
   * container the names arrived in.
   */
  lemma TupleKeysCompareNames(a: TrackInfo, b: TrackInfo)
    ensures InfoKey(TupleInfo(a)) == InfoKey(TupleInfo(b)) <==>
      a.trackName == b.trackName && a.artistNames.names == b.artistNames.names
  {
  }

  /**
   * `drop_duplicates(subset=["trackName", "artistNames"])`: the first row of
   * each song, in the order the songs first appear; no key repeats and
   * every key survives.
   */
  function DropDuplicateSongs<T>(rows: seq<T>, key: T -> (string, ArtistNames)): (r: seq<T>)
    ensures KeptFirst(r, rows, key)
  {
    KeepFirstKept(rows, key);
    KeepFirst(rows, key)
  }

  /**
   * The selected table: a table of the same stage holding the first row of
   * each song, in the order the songs first appear.
   */
  function Deduplicated(t: Table): (u: Table)
    requires !t.Unset?
    ensures t.Info? ==> u.Info? && KeptFirst(u.rows, t.rows, InfoKey)
    ensures t.Flagged? ==> u.Flagged? && KeptFirst(u.listed, t.listed, ListedKey)
    ensures t.Enriched? ==> u.Enriched? && KeptFirst(u.tracks, t.tracks, CardKey)
  {
    match t
    case Info(rows) => Info(DropDuplicateSongs(rows, InfoKey))
    case Flagged(listed) => Flagged(DropDuplicateSongs(listed, ListedKey))
    case Enriched(tracks) => Enriched(DropDuplicateSongs(tracks, CardKey))
  }

  /**
   * get_selected_dataframe: converts the user's recently-played table's
   * artist names to tuples in place, then returns a copy with one row per
   * song. An unloaded table cannot be indexed, and a table built from no
   * tracks has no "artistNames" column.
   */
  method GetSelectedDataframe(user: UserGenes) returns (r: Result<Table>)
    modifies user`recentTracksDF
    ensures old(user.recentTracksDF).Unset? ==> r == Err(NotSubscriptable) && user.recentTracksDF == old(user.recentTracksDF)
    ensures old(user.recentTracksDF) == Info([]) ==>
      r == Err(KeyError("artistNames")) && user.recentTracksDF == old(user.recentTracksDF)
    ensures !old(user.recentTracksDF).Unset? && old(user.recentTracksDF) != Info([]) ==>
      user.recentTracksDF == WithTupleNames(old(user.recentTracksDF)) &&
      r == Ok(Deduplicated(user.recentTracksDF))
  {
    var df := user.recentTracksDF;
    if df.Unset? {
      return Err(NotSubscriptable);
    }
    if df == Info([]) {
      return Err(KeyError("artistNames"));
    }
    user.recentTracksDF := WithTupleNames(df);
    r := Ok(Deduplicated(user.recentTracksDF));
  }

  /**
   * Once get_selected_dataframe has converted a gene table's names to
   * tuples, the user's card list can be built: every name cell is hashable.
   */
  lemma {:induction false} SelectionEnablesCards(user: UserGenes, tracks: seq<Track>)
    requires user.recentTracksDF == WithTupleNames(Enriched(tracks))
    ensures user.GetRecentlyPlayedForCard().Ok?
    ensures |user.GetRecentlyPlayedForCard().value| <= |tracks|
  {
    var converted := user.recentTracksDF.tracks;
    forall t | t in converted
      ensures t.info.artistNames.NameTuple?
    {
      var i :| 0 <= i < |converted| && converted[i] == t;
    }
    KeepFirstKept(converted, CardKey);
    SubsequenceMembers(KeepFirst(converted, CardKey), converted);
  }

  // ---------------------------------------------------------------------
  // The summary prompt and its table
  // ---------------------------------------------------------------------

  /**
   * get_prompt_for_gpt_music_summary: a fixed text; the genre argument is
   * accepted and ignored.
   */
  function GetPromptForGptMusicSummary(genre: string): string
  {
    "\n"
      + "    Your task is to create a personalized 4 sentence summary of your listener's \n"
      + "    music taste that truly resonates with them. Use your analysis of \n"
      + "    a specific number of songs to draw conclusions about their personality \n"
      + "    traits, values, and even lifestyle. Make sure to use language that is \n"
      + "    both clear and engaging, avoiding any technical jargon that could cause \n"
      + "    confusion. To create a summary that truly connects with your listener, address \n"
      + "    them directly and showcase examples of artists and songs that support your conclusions. \n"
      + "    It's important to consider factors such as the popularity of the songs and artists to determine \n"
      + "    if your listener is a mainstream or niche listener. By doing so, you'll be able to tailor your \n"
      + "    summary to their unique tastes, making it a personalized experience that they won't forget! So, \n"
      + "    let's get started and make your listener feel truly understood through the power of music.\n"
      + "    "
  }

  /** The prompt is the same whatever genre is passed. */
  lemma PromptIgnoresGenre(a: string, b: string)
    ensures GetPromptForGptMusicSummary(a) == GetPromptForGptMusicSummary(b)
  {
  }

  /** One row of the summary table: sixteen columns of a gene table, in this order. */
  datatype SummaryRow = SummaryRow(
    trackName: string,
    trackPopularity: string,
    trackDurationMs: string,
    trackExplicit: bool,
    albumName: string,
    albumType: string,
    albumReleaseDate: string,
    artistNames: ArtistNames,
    artistLinks: seq<string>,
    artistGenres: seq<string>,
    artistPopularity: string,
    kind: string,
    trackHref: string,
    durationMs: int,
    timeSignature: int,
    gene: string)

  const SummaryColumns: seq<string> := [
    "trackName", "trackPopularity", "trackDurationMs", "trackExplicit", "albumName", "albumType",
    "albumReleaseDate", "artistNames", "artistLinks", "artistGenres", "artistPopularity",
    "type", "track_href", "duration_ms", "time_signature", "gene"]

  /** The summary columns that only a table with audio features and genes has. */
  const FeatureSummaryColumns: seq<string> := ["type", "track_href", "duration_ms", "time_signature", "gene"]

  function SummaryOf(t: Track): SummaryRow
  {
    var i := t.info;
    SummaryRow(i.trackName, i.trackPopularity, i.trackDurationMs, i.trackExplicit, i.albumName, i.albumType,
      i.albumReleaseDate, i.artistNames, i.artistLinks, i.artistGenres, i.artistPopularity,
      t.features.kind, t.features.trackHref, t.features.durationMs, t.features.timeSignature, t.gene)
  }

  /** The number of rows sent with the prompt at most. */
  const SUMMARY_ROWS := 20

  /**
   * get_gpt_summary_dataframe: the sixteen columns of the first twenty rows
   * of a table. A table without audio features and genes lacks five of
   * them; a table built from no tracks has none.
   */
  function GetGptSummaryDataframe(selected: Table): (r: Result<seq<SummaryRow>>)
    ensures selected.Unset? ==> r == Err(NotSubscriptable)
    ensures selected == Info([]) ==> r == Err(KeyError(NoneInColumns(SummaryColumns)))
    ensures (selected.Info? && selected.rows != []) || selected.Flagged? ==>
      r == Err(KeyError(NotInIndex(FeatureSummaryColumns)))
    ensures selected.Enriched? ==>
      var tracks := selected.tracks;
      r.Ok? && |r.value| == Min(SUMMARY_ROWS, |tracks|) &&
      forall i :: 0 <= i < |r.value| ==> r.value[i] == SummaryOf(tracks[i])
  {
    match selected
    case Unset => Err(NotSubscriptable)
    case Info(rows) =>
      if rows == [] then Err(KeyError(NoneInColumns(SummaryColumns)))
      else Err(KeyError(NotInIndex(FeatureSummaryColumns)))
    case Flagged(_) => Err(KeyError(NotInIndex(FeatureSummaryColumns)))
    case Enriched(tracks) =>
      var n := Min(SUMMARY_ROWS, |tracks|);
      Ok(seq(n, i requires 0 <= i < n => SummaryOf(tracks[i])))
  }

  /** A summary row and a track name the same song by the same artists. */
  predicate SameSong(s: SummaryRow, t: Track)
  {
    s.trackName == t.info.trackName && s.artistNames.names == t.info.artistNames.names
  }

  /**
   * The summary built from a selected gene table has at most twenty rows
   * and names no song twice.
   */
  lemma {:induction false} SummaryOfSelectionDistinct(tracks: seq<Track>)
    ensures
      var r := GetGptSummaryDataframe(Deduplicated(WithTupleNames(Enriched(tracks))));
      r.Ok? && |r.value| <= SUMMARY_ROWS &&
      forall i, j :: 0 <= i < j < |r.value| ==>
        (r.value[i].trackName, r.value[i].artistNames) != (r.value[j].trackName, r.value[j].artistNames)
  {
    var kept := DropDuplicateSongs(WithTupleNames(Enriched(tracks)).tracks, CardKey);
    var r := GetGptSummaryDataframe(Enriched(kept));
    forall i, j | 0 <= i < j < |r.value|
      ensures (r.value[i].trackName, r.value[i].artistNames) != (r.value[j].trackName, r.value[j].artistNames)
    {
      assert CardKey(kept[i]) != CardKey(kept[j]);
    }
  }

  /** Converting a gene table's names to tuples keeps every song's name and artist names. */
  lemma TupleNamesKeepSongs(tracks: seq<Track>)
    ensures forall x :: x in WithTupleNames(Enriched(tracks)).tracks ==>
      exists t :: t in tracks && SameSong(SummaryOf(x), t)
  {
    var converted := WithTupleNames(Enriched(tracks)).tracks;
    forall x | x in converted
      ensures exists t :: t in tracks && SameSong(SummaryOf(x), t)
    {
      var k :| 0 <= k < |converted| && converted[k] == x;
      assert SameSong(SummaryOf(x), tracks[k]);
      assert tracks[k] in tracks;
    }
  }

  /** Every song the summary names is a song of the user's table. */
  lemma {:induction false} SummaryOfSelectionFromTable(tracks: seq<Track>)
    ensures
      var r := GetGptSummaryDataframe(Deduplicated(WithTupleNames(Enriched(tracks))));
      r.Ok? && forall i :: 0 <= i < |r.value| ==> exists t :: t in tracks && SameSong(r.value[i], t)
  {
    var converted := WithTupleNames(Enriched(tracks)).tracks;
    var kept := DropDuplicateSongs(converted, CardKey);
    var r := GetGptSummaryDataframe(Enriched(kept));
    TupleNamesKeepSongs(tracks);
    SubsequenceMembers(kept, converted);
    forall i | 0 <= i < |r.value|
      ensures exists t :: t in tracks && SameSong(r.value[i], t)
    {
      assert r.value[i] == SummaryOf(kept[i]) && kept[i] in converted;
    }
  }
}
