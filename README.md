# music_meta_manager in Dafny

A model of the core of `music_meta_manager`. The tool copies song metadata
(name, artist, rating, play count, date added, ...) between an iTunes
library export, the macOS Music app and a JSON file. Every source is read
into one canonical song record. The model covers:

- the record `BaseSong` of `musicmanager/song.py` (`Song`, `SongOps`,
  helpers in `Py` and `Utf8`): construction from raw keyword arguments with
  per-source key normalisation and casting, the `date_added` setter, the
  star rating and star counting, and the operators `@`, `==`, `>=` and `<`;
- the adapters of `musicmanager/adapter.py`:
  - `Reader`: what every reader shares, namely a generator run, `__contains__` and field matching;
  - `TunesXml`: the iTunes XML reader over an element tree;
  - `Player`: the Music app reader and writer over a library held in a class;
  - `JsonDb`: the JSON store as a class holding its documents;
- the command line selection and migrate loop of `musicmanager/cli.py` (`Cli`);
- the legacy copy in `musicmanager/__main__.py` (`Legacy`, plus the
  `Legacy` generation of `Song.Build`);
- the prototype in `music_manager/__main__.py` (`Prototype`).

A generator is modelled by the run it produces: the songs it yields, in
order, and the exception that ended it, if any (`Reader.Stream`). Python
exceptions are values of `Py.Error`. The current date, which the class
attributes `year` and `_date_added` are evaluated from, is a parameter.

Some behaviour of the code is modelled as written:

- The packaged Music reader enumerates positions 0..n. Under the client
  behaviour assumed below (positions 1..n and -n..-1 exist, and `jump(0)`
  fails), track 1 is yielded twice. For a match reported at a position p
  with 2 <= p <= n, p is one ahead of the track the song came from, and
  the writer pushes the fields to the track after the matched one
  (`Player.WriteTargetsNextTrack`). At position 1 (the first reading of
  track 1) and at position n + 1 (track n, where the failed jump leaves the
  app) the push lands on the matched track
  (`Player.WriteTargetsMatchedTrackAtEnds`).
- A JSON round trip drops `date_added`. The document stores it under
  `_date_added`, which the allow-list does not accept, so the song read
  back has the date only as its class default (`JsonDb.JsonRoundTrip`).
- The legacy writer never updates a track. A first-position match is
  falsy and skipped. Any other match jumps to it and then raises:
  `AttributeError` from `asdict` when `name` or `location` is unset,
  otherwise `TypeError` from the one-argument `set_song_field` call
  (`Legacy.LegacyWriteNeverPushes`, `Legacy.LegacyMatchRaises`).
  The position the legacy enumeration leaves the app at is a parameter.

## Model

| member | source | states |
|---|---|---|
| Py.ToInt | musicmanager/song.py:79-85 | `int(v)` keeps an int, parses text that is an optional sign and ASCII digits (single `_` between digits, whitespace around it allowed), raises `ValueError` on other text and `TypeError` on `None` and dates |
| Py.ParseIntPadded | musicmanager/song.py:79-85 | `int` ignores the whitespace around a number |
| Py.ParseIntGrouped | musicmanager/song.py:79-85 | `int` accepts a single `_` between digits |
| Py.ParseIntDoubledUnderscore | musicmanager/song.py:79-85 | `int` refuses a doubled `_` with `ValueError` |
| Py.ToStr | musicmanager/song.py:79-85 | `str(v)` is text and keeps text unchanged |
| Py.Strptime | musicmanager/song.py:135-138 | parsing with `%Y-%m-%dT%H:%M:%SZ` gives a valid moment, raises `ValueError` on text that does not fit, and raises `TypeError` on anything that is not text |
| Py.IsoZRoundTrip | musicmanager/song.py:135-138 | every valid moment written in that format parses back to itself |
| Py.IntTextRoundTrip | musicmanager/song.py:79-85 | an integer's decimal text converts back to that integer |
| Py.SplitJoin | musicmanager/adapter.py:281 | the comma-split pieces joined with commas restore the text, and no piece holds a comma |
| Py.StripIsTrimmedInfix | musicmanager/adapter.py:281 | `strip` returns the infix left when the surrounding whitespace is removed |
| Py.DictFromMeaning | musicmanager/adapter.py:128-129 | a `dict` built from pairs has each key once, exactly the keys of the pairs, and the value of the last pair for each key |
| Py.DedupSpec | musicmanager/adapter.py:203 | `list(set(xs))` holds every element of xs exactly once and nothing else |
| Song.FieldOf | musicmanager/song.py:66-73 | a key selects the field that has exactly that name, and no field when none has it |
| Song.PrivateKeyNotAllowed | musicmanager/song.py:66-73 | the instance key `_date_added` is not on the allow-list, so it selects no field |
| Song.TunesNormalizeShape | musicmanager/song.py:127-132 | a `TunesSong` normalised key has no upper-case letter and no space |
| Song.TunesNormalizeIdempotent | musicmanager/song.py:127-132 | normalising a `TunesSong` key twice gives the same key as once |
| Song.TunesNormalizeFieldName | musicmanager/song.py:127-132 | every field name passes through the `TunesSong` normalisation unchanged |
| Song.TunesNormalizePlayCount | musicmanager/song.py:127-132 | the export key `Play Count` normalises to `played_count`; the prototype's `_normalize_field` (`music_manager/__main__.py:55-60`) is the same function |
| Song.TunesNormalizeDateAdded | musicmanager/song.py:127-132 | the export key `Date Added` normalises to `date_added` |
| Song.ResolveKey | musicmanager/song.py:66-68 | for every source but the library export the raw key is used unchanged (their normalisers return `None`) |
| Song.NormalizeDatetime | musicmanager/song.py:135-138 | a date the library export or the JSON store normalises successfully is a `datetime` |
| Song.Cast | musicmanager/song.py:79-85 | a text field's cast result is text and an int field's cast result is an int |
| Song.SetDateAdded | musicmanager/song.py:95-102 | the packaged setter stores any date or `datetime` as midnight of that day, raises `TypeError` on anything else, and leaves the other attributes alone; the legacy setter (`musicmanager/__main__.py:132-136`) accepts only a `datetime`, stores it unchanged, and raises `TypeError` on anything else |
| Song.Construct | musicmanager/song.py:63-77 | the `__init__` loop builds exactly the song `Build` describes, stopping at the first exception |
| Song.BuildWellTyped | musicmanager/song.py:63-85 | every value a packaged song holds has its field's declared type, and its date is a midnight `datetime` |
| Song.UnknownKeyIgnored | musicmanager/song.py:66-73 | a keyword whose normalised name is not a field is ignored wherever it stands, without an exception |
| Song.BuildOnlyNamedFields | musicmanager/song.py:66-73 | every attribute a built song holds was named by some keyword |
| Song.BuildErrSticky | musicmanager/song.py:63-77 | once a keyword raises, the later keywords are never looked at |
| Song.StepAssigns | musicmanager/song.py:74-77 | a keyword naming a field stores its stored value in that field and changes no other field, or raises the exception storing it raises |
| Song.SetKeyword | musicmanager/song.py:66-77 | one pass of the `__init__` loop body is the step `Build` folds |
| Song.MacOSDate | musicmanager/song.py:74-77 | a Music app `datetime` keyword gives a song holding midnight of that day in the packaged code, and a `TypeError` in the legacy code |
| Song.TunesDateCast | musicmanager/song.py:135-138 | an export date string casts back to the moment it writes out |
| Song.DateKeeps | musicmanager/song.py:96-102 | a parsed export date is stored at midnight by the packaged setter and unchanged by the legacy one |
| Song.TunesDate | musicmanager/song.py:96-102 | an export date under any key normalising to `date_added` loses its time of day under the packaged setter and keeps it under the legacy one |
| Song.AttrOf | musicmanager/song.py:19-27 | reading a field gives the instance's value when set, falls back to the class default otherwise, and raises only for an unset `name` or `location` |
| SongOps.SongStarsOfWellTyped | musicmanager/song.py:87-89 | a well-typed song's stars are the star count of its rating |
| Song.AsDict | musicmanager/song.py:19-27 | `asdict` raises `AttributeError` when `name` or `location` is unset, and otherwise lists every field in declaration order |
| Song.StrError | musicmanager/song.py:30-31 | formatting a song raises `AttributeError` when `name` is unset, and nothing for a well-typed song with a name |
| SongOps.CountStarsIsOccurrences | musicmanager/song.py:168-170 | counting the UTF-8 bytes E2 AD 90 counts the star characters U+2B50 |
| SongOps.EncodesToStar | musicmanager/song.py:168-170 | only U+2B50 encodes to the bytes E2 AD 90 |
| SongOps.RepeatGlyphStars | musicmanager/song.py:87-89 | the star glyph repeated n times holds n stars |
| SongOps.StarCount | musicmanager/song.py:87-89 | the star count is the whole number of twentieths of the rating |
| SongOps.StarCountRange | musicmanager/song.py:87-89 | for ratings 0..100 the count is in 0..5, with 100 giving 5, 89 giving 4 and 0 giving 0 |
| SongOps.RatingInStars | musicmanager/song.py:87-89 | `count_stars(rating_in_stars)` is the star count, and it raises only when the rating does not convert |
| SongOps.MatMulMeaning | musicmanager/song.py:33-35 | `a @ b` compares the pairs (name, artist) |
| SongOps.MatMulReflexiveSymmetric | musicmanager/song.py:33-35 | `@` is reflexive and symmetric, and raises exactly when a name is unset |
| SongOps.MatMulIgnoresOtherFields | musicmanager/song.py:33-35 | `@` does not depend on any field but name and artist |
| SongOps.EqMeaning | musicmanager/song.py:37-45 | `==` raises against a non-string; against a string with stars it compares star counts or the name; against one without, the name |
| SongOps.EqOwnStars | musicmanager/song.py:37-45 | a song equals its own star string |
| SongOps.GeLtYear | musicmanager/song.py:47-61 | against an int, `>=` and `<` compare the year |
| SongOps.GeLtStars | musicmanager/song.py:47-61 | against a star string exactly one of `>=` and `<` holds; against a string without stars both are false |
| Reader.ConstructEach | musicmanager/adapter.py:230-234 | a run builds one song per keyword list in order and ends at the first construction that raises |
| Reader.YieldEach | musicmanager/adapter.py:230-234 | the generator loop produces that run |
| Reader.Contains | musicmanager/adapter.py:78-83 | `__contains__` is the scan `ContainsSpec` describes |
| Reader.ContainsMeaning | musicmanager/adapter.py:78-83 | when the target and every yielded song have a `name`, `target in reader` is true iff some yielded song `@` the target, and false iff the run ended normally with no such song |
| Reader.MatchEmpty | musicmanager/adapter.py:209-211 | an empty field map matches every song |
| Reader.FirstMatch | musicmanager/adapter.py:213-219 | the first matching song: it matches and no earlier one does; none when nothing matches |
| Reader.FindFirst | musicmanager/adapter.py:215-217 | the search loop returns the first match counted from its start |
| Reader.IndexByFields | musicmanager/adapter.py:213-219 | an error ending the enumeration is raised; otherwise the first match is reported at its 1-based position, or raises the error of formatting that song, and `None` iff the run ends normally with no match |
| Reader.MatchReported | musicmanager/adapter.py:213-219 | in a run that ended normally and whose songs all format, any matching song makes the search report a position no later than that song's |
| Player.JumpTarget | musicmanager/adapter.py:184-190 | a jump lands on positions 1..n as given and on -n..-1 from the end, and fails on anything else, 0 included |
| Player.MusicApp.Jump | musicmanager/adapter.py:186 | the app moves to the jump target, or stays and reports failure |
| Player.MusicApp.CurrentIndex | musicmanager/adapter.py:206-207 | the current position, 1-based, or a player error when nothing is selected |
| Player.MusicApp.SetCurrentField | musicmanager/adapter.py:166-173 | setting a property changes only that property of the current track, and fails iff the track has no such property |
| Player.ReadableKwargsMeaning | musicmanager/adapter.py:154-160 | the dict read from a track holds every readable property once, with a value the track shows |
| Player.MusicApp.ReadCurrentTrack | musicmanager/adapter.py:154-160 | the property loop copies every readable property and skips the ones that raise |
| Player.MacOSMusicReadAdapter.SaveIndexReferenceToFile | musicmanager/adapter.py:196-204 | the skip file becomes the old list plus the index, de-duplicated |
| Player.SavedIndices | musicmanager/adapter.py:196-204 | after saving, the list holds the index and every earlier one, each once, and nothing else |
| Player.MacOSMusicReadAdapter.JumpSong | musicmanager/adapter.py:184-190 | a failed jump keeps the position and records the index in the skip file |
| Player.MacOSMusicReadAdapter.YieldSong | musicmanager/adapter.py:146-161 | the enumeration produces `PlayerStream` of the library and leaves the app where `AfterEnumeration` says |
| Player.PlayerKwargs | musicmanager/adapter.py:146-161 | the enumeration reads n + 1 keyword dicts, each from the track its position lands on |
| Player.PlayerStreamShape | musicmanager/adapter.py:146-161 | n tracks give n + 1 songs, the first track twice |
| Player.MacOSMusicReadAdapter.GetSongIndexByFields | musicmanager/adapter.py:213-219 | the search returns `IndexByFields` of the enumeration's run |
| Player.MacOSMusicReadAdapter.SetSongField | musicmanager/adapter.py:166-173 | a `None` value is skipped; an unknown property raises `AttributeError` and is skipped; otherwise the current track's property takes the value |
| Player.MatchFieldNamesMeaning | musicmanager/adapter.py:276-282 | each match field is its comma-separated piece with surrounding whitespace removed |
| SongOps.GetAttrMeaning | musicmanager/song.py:87-89 | `getattr` reads a field under its name or `_date_added`; `rating_in_stars` is computed, holds the star count of the rating and raises only what `float(rating)` raises; any other name, or an unset `name` or `location`, raises `AttributeError` |
| Player.MatchValues | musicmanager/adapter.py:284-286 | reading the match fields raises iff some `getattr` raises, with the first such exception, and otherwise pairs each name with its value |
| Player.PushFieldsMeaning | musicmanager/adapter.py:287-294 | the push loop sets every non-excluded, non-`None` field the track has and leaves every other property alone |
| Player.WriteSpecOnMatch | musicmanager/adapter.py:284-294 | on a match, the library after `write` is the library with the song's `asdict` pushed to the track the jump selected, and no other track changes |
| Player.WriteSpecNoPush | musicmanager/adapter.py:284-294 | without a match, or when `asdict` raises, no track changes |
| Player.WriteKeepsLibrary | musicmanager/adapter.py:284-294 | a write keeps the number of tracks and every track's properties |
| Player.WritePushes | musicmanager/adapter.py:284-294 | on a match the selected track is pushed field by field and every other track is unchanged |
| Player.WriteTargetsNextTrack | musicmanager/adapter.py:146-161 | under the assumed client behaviour, a match reported at position p (2..n) came from track p - 1 while the writer selects track p |
| Player.WriteTargetsMatchedTrackAtEnds | musicmanager/adapter.py:146-161 | under the assumed client behaviour, a match reported at position 1 or n + 1 came from the very track the writer selects |
| Player.MacOSMusicWriteAdapter.Write | musicmanager/adapter.py:284-294 | `write` changes the app and the skip file exactly as `WriteSpec` describes |
| Player.MacOSMusicWriteAdapter.PushAll | musicmanager/adapter.py:287-294 | the push loop leaves the current track as `PushFields` describes and every other track unchanged |
| JsonDb.Document | musicmanager/adapter.py:269-270 | the inserted document is `vars(song)` when every value is JSON-storable, and `TypeError` otherwise |
| JsonDb.JsonWriteAdapter.Write | musicmanager/adapter.py:269-270 | a write appends exactly one document or raises and stores nothing |
| JsonDb.JsonReadAdapter.YieldSong | musicmanager/adapter.py:230-234 | the reader yields one `JsonSong` per document in storage order |
| JsonDb.WellTypedStorable | musicmanager/adapter.py:269-270 | every song built by the packaged code can be stored |
| JsonDb.JsonRoundTrip | musicmanager/song.py:66-73 | reading back what was written restores every attribute except the date |
| JsonDb.ReadAfterWrite | musicmanager/adapter.py:230-234 | after a write the reader yields what it yielded before and then the written song without its date |
| TunesXml.TracksDict | musicmanager/adapter.py:117 | the tracks element is the first `dict` child of the root's first child; `IndexError` iff there is no such child |
| TunesXml.WindowMeaning | musicmanager/adapter.py:118-119 | with a positive limit only the first limit + 1 children are examined; with limit 0 all are |
| TunesXml.Pairs | musicmanager/adapter.py:123-128 | keys at even positions pair with values at odd positions, a lone last key dropped |
| TunesXml.RunKwargs | musicmanager/adapter.py:128-130 | constructing the song raises `TypeError` iff some key element has no text |
| TunesXml.RunKwargsMeaning | musicmanager/adapter.py:128-129 | each keyword appears once, every key element's text is a keyword, and its value is that of the last pair with that key |
| TunesXml.ScanPrefix | musicmanager/adapter.py:120-130 | the runs of a prefix start the runs of the whole list, and an exception in a prefix ends the scan |
| TunesXml.ScanWellFormed | musicmanager/adapter.py:120-130 | on a well-formed export, one run per track in document order, each from its own track, with no exception |
| TunesXml.ScanRepeats | musicmanager/adapter.py:120-130 | a track not starting with "Track ID" repeats the previous run, or raises `UnboundLocalError` when there was none |
| TunesXml.ScanSkipsLeaf | musicmanager/adapter.py:121-125 | a child without sub-elements changes nothing |
| TunesXml.TunesReadAdapter.YieldSong | musicmanager/adapter.py:116-130 | `yield_song` produces `TunesStream` of the tree and limit; the legacy `yield_song` (`musicmanager/__main__.py:250-264`) is the same scan, building legacy songs |
| TunesXml.YieldItems | musicmanager/adapter.py:120-130 | the item loop produces the songs of the scan's runs, then the scan's exception |
| Cli.GetAllAdapterNames | musicmanager/cli.py:63-69 | per adapter type, the names in registry order; a type without adapters has no entry |
| Cli.GetMatchingKwargs | musicmanager/cli.py:72-81 | exactly one entry per constructor parameter in signature order, each the parsed value when present and not `None`, otherwise the default |
| Cli.SelectedMeaning | musicmanager/cli.py:84-98 | an adapter is selected only by a truthy argument with its exact name, no later truthy argument names one of the same type, and nothing is selected iff no truthy argument names one |
| Cli.LastNamed | musicmanager/cli.py:92-96 | among the adapters of one type, the last one with that exact name, and none iff no adapter has the name |
| Cli.SelectType | musicmanager/cli.py:89-97 | the inner loops for one adapter type set that type's entry to the selected adapter's `partial` and leave every other type's entry alone |
| Cli.GetAdaptersInArgs | musicmanager/cli.py:84-98 | each type's entry is the `partial` of the selected adapter with its matching arguments, or absent |
| Cli.GetReadWriteAdapters | musicmanager/cli.py:101-109 | `SystemExit` iff no reader or no writer was selected; otherwise both |
| Cli.Migrate | musicmanager/cli.py:118-121 | the loop formats and writes each song the reader yields, in order, and stops at the first exception |
| Cli.WriteTo | musicmanager/cli.py:120-121 | one song is written to the JSON store or the Music app as that writer's own `write` does |
| Cli.MigrateToJson | musicmanager/cli.py:118-121 | migrating well-typed songs that all format (their `__str__` does not raise) into the JSON store appends one document per song, in the reader's order |
| Cli.MigrateToMusicKeepsLibrary | musicmanager/cli.py:118-121 | migrating into the Music app keeps its tracks and their properties |
| Legacy.LegacyMusicSongHasNoDate | musicmanager/__main__.py:103-114 | a legacy `MacOSMusicSong` can be built only without a date keyword, because the `None` from `normalize_datetime` is assigned and refused |
| Legacy.LegacyIndex | musicmanager/__main__.py:313-316 | the 0-based position of the first match, found before any later enumeration error; `None` iff the run ends normally without a match |
| Legacy.IndexGenerations | musicmanager/__main__.py:313-316 | the packaged search reports the legacy position plus one |
| Legacy.LegacyMusicReadAdapter.GetSongIndexByFields | musicmanager/__main__.py:313-316 | the legacy search returns `LegacyIndex` of the enumeration's run and leaves the app where the enumeration stopped |
| Legacy.LegacyMusicReadAdapter.JumpSong | musicmanager/__main__.py:303-304 | the legacy jump raises on a position the app does not have |
| Legacy.LegacyMusicWriteAdapter.Write | musicmanager/__main__.py:379-384 | the legacy `write` never changes a track; the app stays put when reading the match fields raises, and otherwise ends where the enumeration left it or at the jump target, raising as `LegacyWriteSpec` says |
| Legacy.LegacyWriteNeverPushes | musicmanager/__main__.py:379-384 | a legacy write that returns normally found no match or matched position 0, and did not jump: the app is where the enumeration left it |
| Legacy.LegacyFirstSongSkipped | musicmanager/__main__.py:380 | a match at position 0 is falsy and skipped without an exception |
| Legacy.LegacyMatchRaises | musicmanager/__main__.py:381-383 | any other match raises: a jump to a missing position raises the player's error; after the jump, `asdict` raises `AttributeError` when `name` or `location` is unset, otherwise the one-argument `set_song_field` call raises `TypeError` |
| Prototype.ProtoConstruct | music_manager/__main__.py:32-36 | the prototype `__init__` loop builds the song `ProtoBuild` describes, and never raises |
| Prototype.ProtoBuildMeaning | music_manager/__main__.py:32-36 | a field is set iff some keyword has its exact name, and it holds the last such value, uncast |
| Prototype.ProtoIgnoresCapitalised | music_manager/__main__.py:34-35 | a song built from capitalised export keys holds no attribute |
| Prototype.ExportNameGenerations | music_manager/__main__.py:34-36 | the export key `Name` is dropped by the prototype but reaches `name` in the packaged code |
| Prototype.CapitalisedNotField | music_manager/__main__.py:19-27 | no field name starts with a capital letter |
| Prototype.FirstPrintError | music_manager/__main__.py:102 | the exception printing raises is the first song's that cannot be formatted |
| Prototype.ProtoSongs | music_manager/__main__.py:98-101 | one prototype song per scanned keyword run, in order |
| Prototype.CollectItem | music_manager/__main__.py:92-104 | one pass of the item loop either keeps collecting or stops with what `get_songs` returns |
| Prototype.ScanStops | music_manager/__main__.py:92-104 | an exception in the scan is what `get_songs` raises, provided the songs collected before it all print |
| Prototype.PrintStops | music_manager/__main__.py:101-102 | a song that cannot be printed ends `get_songs` with that song's exception, provided the earlier songs print |
| Prototype.TunesFileReader.GetSongs | music_manager/__main__.py:88-104 | `get_songs` returns or raises what `GetSongsSpec` describes |
| Prototype.GetSongsWellFormed | music_manager/__main__.py:88-104 | on a well-formed export whose songs format, one song per track in document order, each built from its own track |

## Left out

- The Music app client, TinyDB, `ET.parse`, files and the network are
  replaced by values: a class holding the tracks and the current
  position, a class holding the documents, and an element tree.
- Playback commands (`play`, `next`, `volume`, `refresh`, `status`),
  `escape_error_window` (`osascript`, `sleep`) and logging are left out.
  The log lines that format a song are modelled only by the exception
  formatting can raise (`Song.StrError`).
- What `next` does at the end of the library is the app's behaviour,
  not this code's. So the legacy Music enumeration in
  `musicmanager/__main__.py:273-286` is not modelled. The legacy search and
  writer take its run as a parameter, and also the position it leaves the
  app at when the search stops reading it.
- `Cli.Migrate`: a Music app reader and a Music app writer sharing one
  app are not modelled interleaved. The reader's run is computed first
  and given to the loop.
- Reflection and argparse (`get_class_arguments`, `get_adaptors`,
  `adapters_to_argparser`): the registry and the parsed namespace are
  given as values. The namespace is taken in the order its attributes
  were set, which is the order `_get_kwargs()` lists them.
- `rating_in_stars` uses floating point. The model uses the integer form:
  the whole number of twentieths of a non-negative rating, and 0 for a
  negative one. Text ratings convert only as decimal integers.
- `strptime` is fixed-width `%Y-%m-%dT%H:%M:%SZ` only; lowercasing is
  ASCII only.
- `__str__` is modelled only by whether it raises, not by the text.
- `musicmanager/__main__.py`'s `JsonReadAdapter.yield_song` is a stub, and
  the legacy JSON adapters' constructors (lines 325 and 359) name `json`,
  which that file never imports, so they raise `NameError`. Neither is
  modelled.
- Py.DedupSpec: the order of `list(set(...))` is left to Python's set
  implementation. The model keeps first occurrences in order and states
  only which indices the skip file holds, each once.
- `MusicClientParser` in `music_manager/__main__.py` is not part of this
  model.
- The Music app client is assumed, not modelled from its code:
  `Player.JumpTarget` takes positions 1..n as given and -n..-1 from the
  end, and `jump` raises `MusicPlayerError` on anything else, 0 included;
  `Player.MusicApp.SetCurrentField` raises `AttributeError` exactly when
  the current track has no such property; `Player.MusicApp.CurrentIndex`
  raises while no track is selected. `Player.WriteTargetsNextTrack`,
  `Player.WriteTargetsMatchedTrackAtEnds` and the double yield of track 1
  hold under these assumptions.
- Py.ToInt: Unicode decimal digits other than ASCII `0`-`9` are not
  accepted, although Python's `int` accepts them.
- SongOps.GetAttr: a method name (`getattr` then returns a bound method)
  is treated as absent, raising `AttributeError`.
- Reader.IndexByFields: `getattr(song, k, None)` in `_match_song` catches
  only `AttributeError`; when `rating_in_stars` is a match field and a
  yielded song's rating does not convert, the model reads `None` there
  instead of raising.
- Song.Vars lists a song's attributes in field declaration order, while
  `vars()` lists them in the order `__init__` first assigned them; only
  the key order of a stored JSON document differs.
