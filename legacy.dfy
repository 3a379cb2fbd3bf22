/** The legacy copy of the song classes and adapters in
    `musicmanager/__main__.py`. Its songs are built by `Song.Build(Legacy, ..)`
    (no fallback to the raw value, a setter that takes only a `datetime`)
    and its library-export reader is `TunesXml.TunesReadAdapter` with the
    legacy generation. What differs here is the Music adapter: a strict
    `jump`, a search that counts from zero and stops at the first match,
    and a writer that passes one argument to `set_song_field`. The legacy
    enumeration of the app is given as a run. */
module Legacy {
  import opened Py
  import opened Song
  import opened Reader
  import opened Player

  // ---------------------------------------------------------------------
  // Legacy construction

  /** Under the legacy classes a Music-app song cannot carry a date: the
      app's `normalize_datetime` gives `None`, which the legacy code assigns
      as it is and the strict setter refuses. A construction that succeeds
      had no keyword naming `date_added`. */
  lemma {:induction false} LegacyMusicSongHasNoDate(kwargs: Kwargs)
    requires Build(Legacy, MacOS, kwargs).Ok?
    ensures forall i :: 0 <= i < |kwargs| ==> FieldOf(kwargs[i].0) != Some(DateAdded)
    ensures DateAdded !in Build(Legacy, MacOS, kwargs).value.attrs
  {
    if |kwargs| > 0 {
      var init := kwargs[..|kwargs| - 1];
      var last := kwargs[|kwargs| - 1];
      BuildSnoc(Legacy, MacOS, init, last);
      assert kwargs == init + [last];
      LegacyMusicSongHasNoDate(init);
      forall i | 0 <= i < |kwargs| ensures FieldOf(kwargs[i].0) != Some(DateAdded) {
        if i < |init| {
          assert kwargs[i] == init[i];
        }
      }
    }
  }

  // ---------------------------------------------------------------------
  // The legacy Music adapter

  /** The legacy `get_song_index_by_fields`: the enumeration is consumed
      lazily, so the first match is returned, counted from zero, before
      anything the enumeration would raise later. */
  function LegacyIndex(s: Stream, fieldValues: seq<(string, Value)>, today: CalDate): (r: Result<Option<nat>>)
    ensures r.Ok? && r.value.Some? ==>
      r.value.value < |s.items| && MatchSong(s.items[r.value.value], fieldValues, today)
      && forall j :: 0 <= j < r.value.value ==> !MatchSong(s.items[j], fieldValues, today)
    ensures r.Err? <==>
      s.error.Some? && forall j :: 0 <= j < |s.items| ==> !MatchSong(s.items[j], fieldValues, today)
    ensures r.Err? ==> r.error == s.error.value
    ensures r == Ok(None) <==>
      s.error.None? && forall j :: 0 <= j < |s.items| ==> !MatchSong(s.items[j], fieldValues, today)
  {
    match FirstMatch(s.items, fieldValues, today)
    case Some(j) => Ok(Some(j))
    case None => if s.error.Some? then Err(s.error.value) else Ok(None)
  }

  /** Over a run that ends normally the packaged search finds the same
      song one position later (the packaged enumeration is 1-based) unless
      its debug line fails to format the song; the legacy one counts from
      zero. */
  lemma IndexGenerations(s: Stream, fieldValues: seq<(string, Value)>, today: CalDate)
    requires s.error.None?
    ensures LegacyIndex(s, fieldValues, today).Ok?
    ensures LegacyIndex(s, fieldValues, today) == Ok(None) ==> IndexByFields(s, fieldValues, today) == Ok(None)
    ensures LegacyIndex(s, fieldValues, today).value.Some? ==>
      var p := LegacyIndex(s, fieldValues, today).value.value;
      IndexByFields(s, fieldValues, today) ==
        if StrError(s.items[p], today).Some? then Err(StrError(s.items[p], today).value) else Ok(Some(p + 1))
  {
  }

  /** What the legacy writer does: the new current position and the
      exception it raises. Reading the match fields comes first and leaves
      the app at `current`; the search then runs the enumeration, which
      leaves the app at `after`. A match at position 0 is falsy and
      skipped; any other match is jumped to (an absent position raises),
      and then `set_song_field` receives one argument, which raises
      `TypeError` once `asdict` has succeeded. */
  function LegacyWriteSpec(n: nat, current: nat, after: nat, song: Song, s: Stream, matchFields: seq<string>, today: CalDate): (nat, Option<Error>) {
    match MatchValues(song, matchFields, today)
    case Err(e) => (current, Some(e))
    case Ok(fieldValues) =>
      match LegacyIndex(s, fieldValues, today)
      case Err(e) => (after, Some(e))
      case Ok(None) => (after, None)
      case Ok(Some(p)) =>
        if p == 0 then (after, None)
        else
          match JumpTarget(n, p)
          case None => (after, Some(PlayerError))
          case Some(c) =>
            match AsDict(song, today)
            case Err(e) => (c, Some(e))
            case Ok(_) => (c, Some(TypeError))
  }

  /** The legacy read adapter over the app. */
  class LegacyMusicReadAdapter {
    const app: MusicApp

    constructor(app: MusicApp)
      ensures this.app == app
    {
      this.app := app;
    }

    /** The legacy `jump_song`: a fault of the app is raised. */
    method JumpSong(index: int) returns (e: Option<Error>)
      requires app.Valid()
      modifies app
      ensures app.Valid() && app.tracks == old(app.tracks)
      ensures e.None? <==> JumpTarget(|app.tracks|, index).Some?
      ensures e.Some? ==> e.value == PlayerError && app.current == old(app.current)
      ensures e.None? ==> app.current == JumpTarget(|app.tracks|, index).value
    {
      var ok := app.Jump(index);
      if !ok {
        return Some(PlayerError);
      }
      return None;
    }

    /** The legacy `get_song_index_by_fields` over the enumeration's run;
        `after` is the position the enumeration has moved the app to when
        the search stops reading it. */
    method GetSongIndexByFields(enumeration: Stream, after: nat, fieldValues: seq<(string, Value)>, today: CalDate)
      returns (r: Result<Option<nat>>)
      requires app.Valid() && after <= |app.tracks|
      modifies app
      ensures app.Valid() && app.tracks == old(app.tracks) && app.current == after
      ensures r == LegacyIndex(enumeration, fieldValues, today)
    {
      app.current := after;
      var found := FindFirst(enumeration.items, fieldValues, 0, today);
      if found.Some? {
        return Ok(found);
      }
      if enumeration.error.Some? {
        return Err(enumeration.error.value);
      }
      return Ok(None);
    }
  }

  /** The legacy writer. */
  class LegacyMusicWriteAdapter {
    const reader: LegacyMusicReadAdapter
    const matchFields: seq<string>
    const excludeFields: string

    constructor(reader: LegacyMusicReadAdapter, matchFields: string, excludeFields: string)
      ensures this.reader == reader && this.excludeFields == excludeFields
      ensures this.matchFields == MatchFieldNames(matchFields)
    {
      this.reader := reader;
      this.excludeFields := excludeFields;
      this.matchFields := MatchFieldNames(matchFields);
    }

    /** `write(song)`, with the reader's enumeration given as its run and
      the position it leaves the app at: the library is never changed,
      only the current position may move. */
    method Write(song: Song, enumeration: Stream, after: nat, today: CalDate) returns (r: Option<Error>)
      requires reader.app.Valid() && after <= |reader.app.tracks|
      modifies reader.app
      ensures reader.app.Valid() && reader.app.tracks == old(reader.app.tracks)
      ensures (reader.app.current, r) ==
        LegacyWriteSpec(|old(reader.app.tracks)|, old(reader.app.current), after, song, enumeration, matchFields, today)
    {
      var matching := MatchValues(song, matchFields, today);
      if matching.Err? {
        return Some(matching.error);
      }
      var songIndex := reader.GetSongIndexByFields(enumeration, after, matching.value, today);
      if songIndex.Err? {
        return Some(songIndex.error);
      }
      if songIndex.value.None? || songIndex.value.value == 0 {
        return None;
      }
      var jumped := reader.JumpSong(songIndex.value.value);
      if jumped.Some? {
        return jumped;
      }
      var d := AsDict(song, today);
      if d.Err? {
        return Some(d.error);
      }
      return Some(TypeError);
    }
  }

  /** A legacy write that returns normally has not jumped: it found no
      match, or matched the first song and skipped it, and the app is
      where the enumeration left it. */
  lemma LegacyWriteNeverPushes(n: nat, current: nat, after: nat, song: Song, s: Stream, matchFields: seq<string>, today: CalDate)
    ensures LegacyWriteSpec(n, current, after, song, s, matchFields, today).1.None? ==>
      LegacyWriteSpec(n, current, after, song, s, matchFields, today).0 == after
      && MatchValues(song, matchFields, today).Ok?
      && var fv := MatchValues(song, matchFields, today).value;
         LegacyIndex(s, fv, today) == Ok(None) || LegacyIndex(s, fv, today) == Ok(Some(0))
  {
  }

  /** A song matching the first one the app yields is skipped without an
      exception, whatever follows in the enumeration. */
  lemma LegacyFirstSongSkipped(n: nat, current: nat, after: nat, song: Song, s: Stream, matchFields: seq<string>, today: CalDate)
    requires MatchValues(song, matchFields, today).Ok? && |s.items| > 0
    requires MatchSong(s.items[0], MatchValues(song, matchFields, today).value, today)
    ensures LegacyWriteSpec(n, current, after, song, s, matchFields, today) == (after, None)
  {
  }

  /** Any other match ends in an exception: a failed jump raises the
      player's error; after a jump, `asdict` raises `AttributeError` when
      `name` or `location` is unset, and otherwise the one-argument
      `set_song_field` call raises `TypeError`. */
  lemma LegacyMatchRaises(n: nat, current: nat, after: nat, song: Song, s: Stream, matchFields: seq<string>, today: CalDate, p: nat)
    requires MatchValues(song, matchFields, today).Ok? && p > 0
    requires LegacyIndex(s, MatchValues(song, matchFields, today).value, today) == Ok(Some(p))
    ensures LegacyWriteSpec(n, current, after, song, s, matchFields, today).1.Some?
    ensures p <= n ==> LegacyWriteSpec(n, current, after, song, s, matchFields, today).0 == p
    ensures p <= n ==> (LegacyWriteSpec(n, current, after, song, s, matchFields, today).1 ==
                        Some(if Name in song.attrs && Location in song.attrs then TypeError else AttributeError))
    ensures p > n ==> LegacyWriteSpec(n, current, after, song, s, matchFields, today) == (after, Some(PlayerError))
  {
  }
}
