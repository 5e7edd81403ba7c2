/**
 * The older copy of the engine, class UserPreferences: the user's top
 * tracks as returned by the catalog service, deduplicated by id, merged
 * with their audio features and given a four-letter "preference" code.
 */
module Preferences {
  import opened Wrappers
  import opened Frame
  import opened Catalog
  import Genes

  /**
   * _calculatePreference: the same four strict thresholds as the gene
   * classifier.
   */
  function CalculatePreference(row: GeneInputs): (p: string)
    ensures Genes.IsGeneCode(p)
    ensures p[0] == 'H' <==> row.energy > 0.5
    ensures p[1] == 'P' <==> row.mode > 0.49
    ensures p[2] == 'F' <==> row.tempo > 100.0
    ensures p[3] == 'E' <==> row.acousticness < 0.5
  {
    var energyPreference := if row.energy > 0.5 then 'H' else 'L';
    var moodPreference := if row.mode > 0.49 then 'P' else 'N';
    var tempoPreference := if row.tempo > 100.0 then 'F' else 'S';
    var instrumentationPreference := if row.acousticness < 0.5 then 'E' else 'A';
    [energyPreference, moodPreference, tempoPreference, instrumentationPreference]
  }

  /** Both classes classify every feature row alike. */
  lemma {:induction false} PreferenceIsGene(row: GeneInputs)
    ensures CalculatePreference(row) == Genes.CalculateGene(row)
  {
    Genes.SameChoicesSameCode(CalculatePreference(row), Genes.CalculateGene(row));
  }

  /** A row of the scored table: a top-track item, its audio features and its preference. */
  datatype PrefRow = PrefRow(track: ApiTrack, features: AudioFeatures, preference: string)

  /**
   * The `df` field: not loaded (None), the top-track items, or the items
   * merged with their features and scored.
   */
  datatype Table = Unset | Items(tracks: seq<ApiTrack>) | Scored(rows: seq<PrefRow>)

  function TrackId(t: ApiTrack): string { t.id }

  function PreferenceOf(p: PrefRow): string { p.preference }

  function EnergyOf(p: PrefRow): real { p.features.energy }

  function ModeOf(p: PrefRow): real { p.features.mode }

  function TempoOf(p: PrefRow): real { p.features.tempo }

  function AcousticnessOf(p: PrefRow): real { p.features.acousticness }

  /**
   * `drop_duplicates(subset="id")`: the first item with each id, in the
   * order the ids first appear; no id repeats and every id of the input
   * survives.
   */
  function DedupById(items: seq<ApiTrack>): (r: seq<ApiTrack>)
    ensures KeptFirst(r, items, TrackId)
  {
    KeepFirstKept(items, TrackId);
    KeepFirst(items, TrackId)
  }

  /** A scored row whose preference is the classifier applied to its own features. */
  predicate PreferenceConsistent(p: PrefRow)
  {
    p.preference == CalculatePreference(InputsOf(p.features))
  }

  function ScoredRow(t: ApiTrack, f: AudioFeatures): PrefRow
  {
    PrefRow(t, f, CalculatePreference(InputsOf(f)))
  }

  /** _addPreferenceColumn: every row gains the preference of its own features; nothing else changes. */
  function AddPreferenceColumn(joined: seq<(ApiTrack, AudioFeatures)>): (r: seq<PrefRow>)
    ensures |r| == |joined|
    ensures forall i :: 0 <= i < |r| ==>
      r[i].track == joined[i].0 && r[i].features == joined[i].1 && PreferenceConsistent(r[i])
  {
    seq(|joined|, i requires 0 <= i < |joined| => ScoredRow(joined[i].0, joined[i].1))
  }

  /**
   * `pd.merge(df, features, on="id")` followed by _addPreferenceColumn:
   * one row for every pair of an item and a feature row with the same id,
   * and only those; each row carries its own preference.
   */
  function ScoredRows(items: seq<ApiTrack>, features: seq<AudioFeatures>): (r: seq<PrefRow>)
    ensures |r| == JoinSize(items, features, TrackId, Genes.FeatureId)
  {
    InnerJoinSize(items, features, TrackId, Genes.FeatureId);
    AddPreferenceColumn(InnerJoin(items, features, TrackId, Genes.FeatureId))
  }

  /** Every merged row pairs an item with a feature row of the same id and carries its own preference. */
  lemma ScoredRowsSound(items: seq<ApiTrack>, features: seq<AudioFeatures>)
    ensures forall p :: p in ScoredRows(items, features) ==>
      PreferenceConsistent(p) && p.track.id == p.features.id && p.track in items && p.features in features
  {
    var joined := InnerJoin(items, features, TrackId, Genes.FeatureId);
    var r := ScoredRows(items, features);
    forall p | p in r
      ensures PreferenceConsistent(p) && p.track.id == p.features.id && p.track in items && p.features in features
    {
      var i :| 0 <= i < |r| && r[i] == p;
      assert joined[i] in joined;
    }
  }

  /** Every pair of an item and a feature row with the same id is merged. */
  lemma ScoredRowsComplete(items: seq<ApiTrack>, features: seq<AudioFeatures>)
    ensures forall t, f :: t in items && f in features && t.id == f.id ==> ScoredRow(t, f) in ScoredRows(items, features)
  {
    var joined := InnerJoin(items, features, TrackId, Genes.FeatureId);
    var r := ScoredRows(items, features);
    forall t, f | t in items && f in features && t.id == f.id
      ensures ScoredRow(t, f) in r
    {
      assert (t, f) in joined;
      var i :| 0 <= i < |joined| && joined[i] == (t, f);
      assert r[i] == ScoredRow(t, f);
    }
  }

  /** With ids made unique first, the merge never adds rows. */
  lemma ScoredRowsAfterDedup(items: seq<ApiTrack>, features: seq<AudioFeatures>)
    requires forall i, j :: 0 <= i < j < |features| ==> features[i].id != features[j].id
    ensures |ScoredRows(DedupById(items), features)| <= |DedupById(items)|
  {
    InnerJoinSize(DedupById(items), features, TrackId, Genes.FeatureId);
    JoinSizeUniqueRight(DedupById(items), features, TrackId, Genes.FeatureId);
  }

  /** One row of an examples table; the artist is the first artist object of the item. */
  datatype PreferenceExample = PreferenceExample(name: string, artist: ArtistRef, tag: Label)

  predicate ExampleOf(e: PreferenceExample, p: PrefRow, tag: Label)
  {
    e.name == p.track.name && p.track.artists != [] && e.artist == p.track.artists[0] && e.tag == tag
  }

  /** Each row's name and first artist under a tag; an item without artists is an index error. */
  function ExampleRows(rows: seq<PrefRow>, tag: Label): (r: Result<seq<PreferenceExample>>)
    ensures r.Ok? <==> forall i :: 0 <= i < |rows| ==> rows[i].track.artists != []
    ensures r.Err? ==> r.error == IndexError
    ensures r.Ok? ==> |r.value| == |rows| && forall i :: 0 <= i < |rows| ==> ExampleOf(r.value[i], rows[i], tag)
  {
    if rows == [] then Ok([])
    else
      var p := rows[0];
      assert forall i :: 1 <= i < |rows| ==> rows[i] == rows[1..][i - 1];
      if p.track.artists == [] then Err(IndexError)
      else
        match ExampleRows(rows[1..], tag)
        case Err(e) => Err(e)
        case Ok(rest) => Ok([PreferenceExample(p.track.name, p.track.artists[0], tag)] + rest)
  }

  function TraitMetric(c: FeatureColumn): PrefRow -> real
  {
    (p: PrefRow) => FeatureValue(p.features, c)
  }

  /**
   * The examples of a scored table for one feature column: the three rows
   * with the largest value, largest first, labelled "Top", then the first
   * row with the smallest value, labelled "Contrary".
   */
  function ExamplesOfTrait(rows: seq<PrefRow>, c: FeatureColumn): (r: Result<seq<PreferenceExample>>)
    ensures
      var top, low := NLargest(rows, 3, TraitMetric(c)), NSmallestOne(rows, TraitMetric(c));
      (r.Ok? <==> forall p :: p in top + low ==> p.track.artists != []) &&
      (r.Err? ==> r.error == IndexError) &&
      (r.Ok? ==>
        |r.value| == |top| + |low| &&
        (forall i :: 0 <= i < |top| ==> ExampleOf(r.value[i], top[i], Top)) &&
        (forall i :: 0 <= i < |low| ==> ExampleOf(r.value[|top| + i], low[i], Contrary)))
  {
    var top, low := NLargest(rows, 3, TraitMetric(c)), NSmallestOne(rows, TraitMetric(c));
    assert forall p :: p in top + low <==> p in top || p in low;
    match ExampleRows(top, Top)
    case Err(e) => Err(e)
    case Ok(topExamples) =>
      match ExampleRows(low, Contrary)
      case Err(e) => Err(e)
      case Ok(contraryExample) => Ok(topExamples + contraryExample)
  }

  /** The column name a trait reads, as a key error names it. */
  function ColumnName(c: FeatureColumn): string
  {
    match c
    case Energy => "energy"
    case Valence => "valence"
    case Tempo => "tempo"
    case Instrumentalness => "instrumentalness"
  }

  /** A row of the readable table: name, first artist's name and link, preference and song link. */
  datatype PrettyRow = PrettyRow(name: string, artist: string, preference: string, artistLink: string, songLink: string)

  /**
   * The readable projection of the scored rows. The first artist of every
   * row is read, so a row without artists is an index error.
   */
  function PrettyRows(rows: seq<PrefRow>): (r: Result<seq<PrettyRow>>)
    ensures r.Ok? <==> forall i :: 0 <= i < |rows| ==> rows[i].track.artists != []
    ensures r.Err? ==> r.error == IndexError
    ensures r.Ok? ==> |r.value| == |rows| && forall i :: 0 <= i < |rows| ==>
      var t := rows[i].track;
      r.value[i] == PrettyRow(t.name, t.artists[0].name, rows[i].preference, t.artists[0].spotifyURL, t.spotifyURL)
  {
    if rows == [] then Ok([])
    else
      var t := rows[0].track;
      assert forall i :: 1 <= i < |rows| ==> rows[i] == rows[1..][i - 1];
      if t.artists == [] then Err(IndexError)
      else
        match PrettyRows(rows[1..])
        case Err(e) => Err(e)
        case Ok(rest) => Ok([PrettyRow(t.name, t.artists[0].name, rows[0].preference, t.artists[0].spotifyURL, t.spotifyURL)] + rest)
  }

  function PrettyPreference(p: PrettyRow): string { p.preference }

  /** The columns getPrettyGenreDF selects from the table. */
  const PrettyColumns: seq<string> := ["name", "artists", "preference"]

  class UserPreferences {
    var topTracks: Option<seq<ApiTrack>>
    var df: Table
    var audioFeaturesDF: Option<seq<AudioFeatures>>
    var readablePreferences: Option<seq<PrettyRow>>

    /** A user with nothing loaded. */
    constructor ()
      ensures topTracks == None && df == Unset && audioFeaturesDF == None && readablePreferences == None
    {
      topTracks := None;
      df := Unset;
      audioFeaturesDF := None;
      readablePreferences := None;
    }

    /**
     * _createDataframe: the items become the table, then repeated ids are
     * dropped in place. drop_duplicates returns at once on an empty table,
     * so no items leave an empty table and no error; the missing "id"
     * column only shows when getAudioFeatures reads it.
     */
    method CreateDataframe() returns (err: Option<Error>)
      modifies this`df
      ensures topTracks.None? ==> err == Some(NotSubscriptable) && df == old(df)
      ensures topTracks.Some? ==> err == None && df == Items(DedupById(topTracks.value))
      ensures topTracks == Some([]) ==> df == Items([])
    {
      if topTracks.None? {
        return Some(NotSubscriptable);
      }
      var items := topTracks.value;
      df := Items(items);
      if items != [] {
        df := Items(DedupById(items));
      }
      err := None;
    }

    /** getTopTracks: stores the top-track items, then builds the table. */
    method GetTopTracks(items: seq<ApiTrack>)
      modifies this`topTracks, this`df
      ensures topTracks == Some(items)
      ensures df == Items(DedupById(items))
      ensures items == [] ==> df == Items([])
    {
      topTracks := Some(items);
      var err := CreateDataframe();
      assert err == None;
    }

    /**
     * getAudioFeatures: reads the table's ids, remembers the feature list
     * and replaces the table by its merge with the features, scored. It is
     * called on a table of items; on an unloaded table it fails before
     * changing anything.
     */
    method GetAudioFeatures(features: seq<AudioFeatures>) returns (err: Option<Error>)
      requires !df.Scored?
      modifies this`df, this`audioFeaturesDF
      ensures old(df).Unset? || old(df) == Items([]) ==> unchanged(this)
      ensures old(df).Unset? ==> err == Some(NotSubscriptable)
      ensures old(df) == Items([]) ==> err == Some(KeyError("id"))
      ensures old(df).Items? && old(df).tracks != [] ==>
        audioFeaturesDF == Some(features) &&
        if features == [] then err == Some(KeyError("id")) && df == old(df)
        else err == None && df == Scored(ScoredRows(old(df).tracks, features))
    {
      if df.Unset? {
        return Some(NotSubscriptable);
      }
      var items := df.tracks;
      if items == [] {
        return Some(KeyError("id"));
      }
      audioFeaturesDF := Some(features);
      if features == [] {
        return Some(KeyError("id"));
      }
      df := Scored(ScoredRows(items, features));
      err := None;
    }

    /** initTopTracksDF: getTopTracks, then getAudioFeatures. */
    method InitTopTracksDF(items: seq<ApiTrack>, features: seq<AudioFeatures>) returns (err: Option<Error>)
      modifies this`topTracks, this`df, this`audioFeaturesDF
      ensures topTracks == Some(items)
      ensures items == [] ==> err == Some(KeyError("id")) && df == Items([]) && audioFeaturesDF == old(audioFeaturesDF)
      ensures items != [] ==> audioFeaturesDF == Some(features)
      ensures items != [] && features == [] ==> err == Some(KeyError("id")) && df == Items(DedupById(items))
      ensures items != [] && features != [] ==> err == None && df == Scored(ScoredRows(DedupById(items), features))
    {
      GetTopTracks(items);
      if items != [] {
        assert |DedupById(items)| > 0 by {
          assert items[0] in items;
        }
      }
      err := GetAudioFeatures(features);
    }

    /**
     * getOverallPreferences: the classifier applied to the column means;
     * an empty scored table gives "LNSA" (every comparison with NaN is false).
     */
    function GetOverallPreferences(): (r: Result<string>)
      reads this
      ensures df.Unset? ==> r == Err(NotSubscriptable)
      ensures df.Items? ==> r == Err(KeyError("energy"))
      ensures df.Scored? ==> r.Ok? && Genes.IsGeneCode(r.value)
      ensures df.Scored? && df.rows == [] ==> r == Ok("LNSA")
      ensures df.Scored? && df.rows != [] ==>
        var rows, n, p := df.rows, |df.rows| as real, r.value;
        (p[0] == 'H' <==> Sum(Column(rows, EnergyOf)) > 0.5 * n) &&
        (p[1] == 'P' <==> Sum(Column(rows, ModeOf)) > 0.49 * n) &&
        (p[2] == 'F' <==> Sum(Column(rows, TempoOf)) > 100.0 * n) &&
        (p[3] == 'E' <==> Sum(Column(rows, AcousticnessOf)) < 0.5 * n)
    {
      match df
      case Unset => Err(NotSubscriptable)
      case Items(_) => Err(KeyError("energy"))
      case Scored(rows) =>
        if rows == [] then Ok("LNSA")
        else
          var energy, mode, tempo, acousticness :=
            Column(rows, EnergyOf), Column(rows, ModeOf), Column(rows, TempoOf), Column(rows, AcousticnessOf);
          MeanCompared(energy, 0.5);
          MeanCompared(mode, 0.49);
          MeanCompared(tempo, 100.0);
          MeanCompared(acousticness, 0.5);
          Ok(CalculatePreference(GeneInputs(Mean(energy), Mean(mode), Mean(tempo), Mean(acousticness))))
    }

    /**
     * getPreferenceCounts: each preference's share of the rows in percent,
     * most frequent first, adding up to 100 over a non-empty table.
     */
    function GetPreferenceCounts(): (r: Result<seq<(string, real)>>)
      reads this
      ensures df.Unset? ==> r == Err(NotSubscriptable)
      ensures df.Items? ==> r == Err(KeyError("preference"))
      ensures df.Scored? ==>
        var rows, col := df.rows, Column(df.rows, PreferenceOf);
        r.Ok? &&
        (rows == [] ==> r.value == []) &&
        (forall i :: 0 <= i < |r.value| ==> r.value[i].1 == Share(Count(col, r.value[i].0), |rows|) && r.value[i].1 > 0.0) &&
        (forall i, j :: 0 <= i < j < |r.value| ==> r.value[i].0 != r.value[j].0 && r.value[i].1 >= r.value[j].1) &&
        (forall k :: 0 <= k < |col| ==> exists i :: 0 <= i < |r.value| && r.value[i].0 == col[k]) &&
        (rows != [] ==> SumShares(r.value) == 100.0)
    {
      match df
      case Unset => Err(NotSubscriptable)
      case Items(_) => Err(KeyError("preference"))
      case Scored(rows) =>
        var col := Column(rows, PreferenceOf);
        assert |col| == |rows|;
        Ok(Shares(col))
    }

    /** getExamplesByPreference: exactly the rows of one preference, in table order. */
    function GetExamplesByPreference(preference: string): (r: Result<seq<PrefRow>>)
      reads this
      ensures df.Unset? ==> r == Err(NotSubscriptable)
      ensures df.Items? ==> r == Err(KeyError("preference"))
      ensures df.Scored? ==>
        r.Ok? && IsSubsequence(r.value, df.rows) &&
        (forall p :: p in r.value ==> p.preference == preference) &&
        (forall p :: p in df.rows && p.preference == preference ==> p in r.value) &&
        |r.value| == Count(Column(df.rows, PreferenceOf), preference)
    {
      match df
      case Unset => Err(NotSubscriptable)
      case Items(_) => Err(KeyError("preference"))
      case Scored(rows) =>
        SelectEqSound(rows, PreferenceOf, preference);
        Ok(SelectEq(rows, PreferenceOf, preference))
    }

    /**
     * getPreferenceData: one entry per distinct preference, in order of
     * first appearance, with the number of rows that carry it.
     */
    method GetPreferenceData() returns (r: Result<seq<ValueCount<string>>>)
      ensures df.Unset? ==> r == Err(NotSubscriptable)
      ensures df.Items? ==> r == Err(KeyError("preference"))
      ensures df.Scored? ==>
        var col := Column(df.rows, PreferenceOf);
        r == Ok(Tally(col)) &&
        (forall i :: 0 <= i < |r.value| ==> r.value[i].count > 0) &&
        (forall i, j :: 0 <= i < j < |r.value| ==> r.value[i].value != r.value[j].value) &&
        (forall k :: 0 <= k < |df.rows| ==> exists i :: 0 <= i < |r.value| && r.value[i].value == df.rows[k].preference) &&
        SumCount(r.value) == |df.rows| &&
        (forall i, j :: 0 <= i < j < |r.value| ==>
          FirstPos(df.rows, PreferenceOf, r.value[i].value) < FirstPos(df.rows, PreferenceOf, r.value[j].value))
    {
      if df.Unset? {
        return Err(NotSubscriptable);
      }
      if df.Items? {
        return Err(KeyError("preference"));
      }
      var rows := df.rows;
      var col := Column(rows, PreferenceOf);
      var genres := Unique(col);
      var data: seq<ValueCount<string>> := [];
      var i := 0;
      while i < |genres|
        invariant 0 <= i <= |genres|
        invariant data == TallyOf(genres[..i], col)
      {
        var genre := genres[i];
        var count := |SelectEq(rows, PreferenceOf, genre)|;
        TallyRowStep(rows, PreferenceOf, genres, i);
        data := data + [ValueCount(genre, count)];
        i := i + 1;
      }
      assert genres[..|genres|] == genres;
      TallyOfRows(rows, PreferenceOf);
      TallyOfRowsOrder(rows, PreferenceOf);
      r := Ok(data);
    }

    /**
     * getPreferenceExamples: the examples of the trait's column. An
     * unknown trait is a key error before the table is read; a table
     * without features lacks the column.
     */
    function GetPreferenceExamples(traitName: string): (r: Result<seq<PreferenceExample>>)
      reads this
      ensures TraitColumn(traitName).None? ==> r == Err(KeyError(traitName))
      ensures TraitColumn(traitName).Some? && df.Unset? ==>
        r == Err(AttributeError("'NoneType' object has no attribute 'nlargest'"))
      ensures TraitColumn(traitName).Some? && df.Items? ==> r == Err(KeyError(ColumnName(TraitColumn(traitName).value)))
      ensures TraitColumn(traitName).Some? && df.Scored? ==> r == ExamplesOfTrait(df.rows, TraitColumn(traitName).value)
    {
      match TraitColumn(traitName)
      case None => Err(KeyError(traitName))
      case Some(c) =>
        match df
        case Unset => Err(AttributeError("'NoneType' object has no attribute 'nlargest'"))
        case Items(_) => Err(KeyError(ColumnName(c)))
        case Scored(rows) => ExamplesOfTrait(rows, c)
    }

    /**
     * getPrettyGenreDF: stores the readable projection of the whole table
     * in readablePreferences and returns its rows of one preference.
     */
    method GetPrettyGenreDF(genre: string) returns (r: Result<seq<PrettyRow>>)
      modifies this`readablePreferences
      ensures df.Unset? ==> r == Err(NotSubscriptable) && readablePreferences == old(readablePreferences)
      ensures df == Items([]) ==>
        r == Err(KeyError(Genes.NoneInColumns(PrettyColumns))) && readablePreferences == old(readablePreferences)
      ensures df.Items? && df.tracks != [] ==>
        r == Err(KeyError(Genes.NotInIndex(["preference"]))) && readablePreferences == old(readablePreferences)
      ensures df.Scored? && PrettyRows(df.rows).Err? ==>
        r == Err(IndexError) && readablePreferences == old(readablePreferences)
      ensures df.Scored? && PrettyRows(df.rows).Ok? ==>
        readablePreferences == Some(PrettyRows(df.rows).value) &&
        r == Ok(SelectEq(PrettyRows(df.rows).value, PrettyPreference, genre))
    {
      if df.Unset? {
        return Err(NotSubscriptable);
      }
      if df.Items? {
        if df.tracks == [] {
          return Err(KeyError(Genes.NoneInColumns(PrettyColumns)));
        }
        return Err(KeyError(Genes.NotInIndex(["preference"])));
      }
      var tempDF := PrettyRows(df.rows);
      if tempDF.Err? {
        return Err(tempDF.error);
      }
      readablePreferences := Some(tempDF.value);
      r := Ok(SelectEq(tempDF.value, PrettyPreference, genre));
    }
  }

  /**
   * The rows getPrettyGenreDF returns are exactly the readable rows of the
   * scored rows of that preference, in table order.
   */
  lemma {:induction false} PrettyRowsOfPreference(rows: seq<PrefRow>, genre: string)
    requires PrettyRows(rows).Ok?
    ensures PrettyRows(SelectEq(rows, PreferenceOf, genre)).Ok?
    ensures SelectEq(PrettyRows(rows).value, PrettyPreference, genre) ==
      PrettyRows(SelectEq(rows, PreferenceOf, genre)).value
  {
    if rows != [] {
      assert PrettyRows(rows[1..]).Ok?;
      PrettyRowsOfPreference(rows[1..], genre);
    }
  }
}
