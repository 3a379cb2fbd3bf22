/** The canonical song record of `musicmanager/song.py` (and of its legacy
    copy in `musicmanager/__main__.py`): the allow-list of fields, the
    per-source field-name normalisation, the casts, the `date_added`
    setter and the construction loop over raw keyword arguments. */
module Song {
  import opened Py

  /** The dataclass fields of `BaseSong`, in declaration order. */
  datatype Field = Name | Location | Artist | Genre | Bpm | PlayedCount | Rating | Year | DateAdded

  const FIELDS: seq<Field> := [Name, Location, Artist, Genre, Bpm, PlayedCount, Rating, Year, DateAdded]

  /** Every field is on the list. */
  lemma FieldListed(f: Field)
    ensures f in FIELDS
  {
    var i := match f
      case Name => 0 case Location => 1 case Artist => 2 case Genre => 3 case Bpm => 4
      case PlayedCount => 5 case Rating => 6 case Year => 7 case DateAdded => 8;
    assert FIELDS[i] == f;
  }

  /** The name a field answers to in the allow-list: the dataclass field
      name with a leading underscore removed. */
  function FieldName(f: Field): string {
    match f
    case Name => "name"
    case Location => "location"
    case Artist => "artist"
    case Genre => "genre"
    case Bpm => "bpm"
    case PlayedCount => "played_count"
    case Rating => "rating"
    case Year => "year"
    case DateAdded => "date_added"
  }

  /** The dataclass field's own name, which is also its key in the instance
      dictionary: the date lives in the private `_date_added`. */
  function InstanceKey(f: Field): string {
    if f == DateAdded then "_date_added" else FieldName(f)
  }

  /** The allow-list test: which field, if any, a normalised key names. */
  function FieldOf(key: string): (r: Option<Field>)
    ensures r.Some? ==> FieldName(r.value) == key
    ensures r.None? ==> forall f: Field :: FieldName(f) != key
  {
    if key == "name" then Some(Name)
    else if key == "location" then Some(Location)
    else if key == "artist" then Some(Artist)
    else if key == "genre" then Some(Genre)
    else if key == "bpm" then Some(Bpm)
    else if key == "played_count" then Some(PlayedCount)
    else if key == "rating" then Some(Rating)
    else if key == "year" then Some(Year)
    else if key == "date_added" then Some(DateAdded)
    else None
  }

  /** Every field answers to its own name. */
  lemma FieldOfName(f: Field)
    ensures FieldOf(FieldName(f)) == Some(f)
  {
  }

  /** The private key `_date_added` is not on the allow-list. */
  lemma PrivateKeyNotAllowed()
    ensures FieldOf("_date_added") == None
  {
  }

  // ---------------------------------------------------------------------
  // Field-name normalisation per source

  /** The song classes: `TunesSong`, `MacOSMusicSong`, `JsonSong`. */
  datatype Source = Tunes | MacOS | Json

  /** `TunesSong.normalize_field`: lower-case, every space to `_`, and
      `play_count` renamed to `played_count`. */
  function TunesNormalize(key: string): string {
    var fk := ReplaceChar(Lower(key), ' ', '_');
    if fk == "play_count" then "played_count" else fk
  }

  /** `normalize_field` per source; the `MacOSMusicSong` and `JsonSong`
      versions have a `pass` body and return `None`. */
  function NormalizeField(src: Source, key: string): Option<string> {
    if src == Tunes then Some(TunesNormalize(key)) else None
  }

  /** The key a raw key is looked up under: the normalised name, or the
      raw key when normalisation returns a falsy value (`None` or ""). */
  function ResolveKey(src: Source, key: string): (k: string)
    ensures src != Tunes ==> k == key
  {
    match NormalizeField(src, key)
    case Some(n) => if n != "" then n else key
    case None => key
  }

  /** A normalised name has no upper-case ASCII letter and no space. */
  lemma {:induction false} TunesNormalizeShape(key: string)
    ensures forall i :: 0 <= i < |TunesNormalize(key)| ==>
      TunesNormalize(key)[i] != ' ' && !('A' <= TunesNormalize(key)[i] <= 'Z')
  {
  }

  /** Normalising twice changes nothing more. */
  lemma {:induction false} TunesNormalizeIdempotent(key: string)
    ensures TunesNormalize(TunesNormalize(key)) == TunesNormalize(key)
  {
    var fk := ReplaceChar(Lower(key), ' ', '_');
    var n := TunesNormalize(key);
    var fk2 := ReplaceChar(Lower(n), ' ', '_');
    assert fk2 == n by {
      TunesNormalizeShape(key);
      forall i | 0 <= i < |n| ensures fk2[i] == n[i] {
        assert LowerChar(n[i]) == n[i];
      }
    }
    assert "played_count" != "play_count";
  }

  /** A key with no upper-case ASCII letter and no space, other than
      `play_count`, is its own normalisation. */
  lemma NormalizeFixes(key: string)
    requires forall i :: 0 <= i < |key| ==> key[i] != ' ' && !('A' <= key[i] <= 'Z')
    requires key != "play_count"
    ensures TunesNormalize(key) == key
  {
    var lo := Lower(key);
    assert lo == key by {
      forall i | 0 <= i < |key| ensures lo[i] == key[i] {
        assert LowerChar(key[i]) == key[i];
      }
    }
    var fk := ReplaceChar(lo, ' ', '_');
    assert fk == key;
  }

  /** Field names pass through the `TunesSong` normalisation unchanged. */
  lemma TunesNormalizeFieldName(f: Field)
    ensures TunesNormalize(FieldName(f)) == FieldName(f)
  {
    NormalizeFixes(FieldName(f));
  }

  /** Each character of `t` is that of `s` lowered, a space made `_`. */
  predicate CharsNormalize(s: string, t: string)
    requires |s| == |t|
  {
    forall i :: 0 <= i < |s| ==> t[i] == (if LowerChar(s[i]) == ' ' then '_' else LowerChar(s[i]))
  }

  /** Normalising a key character by character: `t` is the normalisation
      of `s` when each character is the lowered one, with space as `_`. */
  lemma NormalizeChars(s: string, t: string)
    requires |s| == |t|
    requires CharsNormalize(s, t)
    ensures ReplaceChar(Lower(s), ' ', '_') == t
  {
  }

  /** The key a library export uses for the play count reaches the
      `played_count` field. */
  lemma TunesNormalizePlayCount()
    ensures TunesNormalize("Play Count") == "played_count"
  {
    var s := "Play Count";
    var t := "play_count";
    assert CharsNormalize(s, t) by {
      forall i | 0 <= i < |s|
        ensures t[i] == (if LowerChar(s[i]) == ' ' then '_' else LowerChar(s[i]))
      {
        if i < 5 {
          if i < 2 { } else { }
        } else {
          if i < 7 { } else { }
        }
      }
    }
    NormalizeChars(s, t);
  }

  /** The export's `Date Added` key reaches the `date_added` field. */
  lemma TunesNormalizeDateAdded()
    ensures TunesNormalize("Date Added") == "date_added"
  {
    var s := "Date Added";
    var t := "date_added";
    assert CharsNormalize(s, t) by {
      forall i | 0 <= i < |s|
        ensures t[i] == (if LowerChar(s[i]) == ' ' then '_' else LowerChar(s[i]))
      {
        if i < 5 {
          if i < 2 { } else { }
        } else {
          if i < 7 { } else { }
        }
      }
    }
    NormalizeChars(s, t);
  }

  // ---------------------------------------------------------------------
  // Casts

  /** The declared type of each field: `str`, `int`, or the string
      annotation "normalize_datetime" for the date. */
  datatype Kind = TextKind | IntKind | DateKind

  function KindOf(f: Field): Kind {
    match f
    case Name | Location | Artist | Genre => TextKind
    case Bpm | PlayedCount | Rating | Year => IntKind
    case DateAdded => DateKind
  }

  /** `normalize_datetime` per source: `strptime` for `TunesSong`, `None`
      (a `pass` body) for `MacOSMusicSong`, midnight of the day for
      `JsonSong` (`toordinal` is missing on anything but a date). */
  function NormalizeDatetime(src: Source, v: Value): (r: Result<Value>)
    ensures r.Ok? && src != MacOS ==> r.value.DateTime?
  {
    match src
    case Tunes => (match Strptime(v) case Ok(t) => Ok(DateTime(t)) case Err(e) => Err(e))
    case MacOS => Ok(Null)
    case Json =>
      (match v
       case Date(d) => Ok(DateTime(Midnight(d)))
       case DateTime(t) => Ok(DateTime(Midnight(t.date)))
       case _ => Err(AttributeError))
  }

  /** `_cast`: the value passed through the field's declared type. */
  function Cast(src: Source, f: Field, v: Value): (r: Result<Value>)
    ensures r.Ok? && KindOf(f) == TextKind ==> r.value.Str?
    ensures r.Ok? && KindOf(f) == IntKind ==> r.value.Int?
  {
    match KindOf(f)
    case TextKind => Ok(ToStr(v))
    case IntKind => ToInt(v)
    case DateKind => NormalizeDatetime(src, v)
  }

  // ---------------------------------------------------------------------
  // The record

  /** The attributes a song instance holds itself; a field missing from
      `attrs` falls back to the class attribute, if there is one. */
  datatype Song = Song(attrs: map<Field, Value>)

  const EMPTY: Song := Song(map[])

  /** Keyword arguments in call order: an insertion-ordered dict. */
  type Kwargs = seq<(string, Value)>

  /** The two generations of `BaseSong`: the packaged one in
      `musicmanager/song.py` and the legacy copy in
      `musicmanager/__main__.py`. */
  datatype Generation = Packaged | Legacy

  /** The `date_added` setter. The packaged setter stores any date (a
      `datetime` is a `date` too) as a `datetime` at midnight of that day;
      the legacy setter stores a `datetime` as it is. Anything else raises
      `TypeError`; the other attributes are left alone. */
  function SetDateAdded(gen: Generation, song: Song, v: Value): (r: Result<Song>)
    ensures r.Ok? <==> v.DateTime? || (gen == Packaged && v.Date?)
    ensures r.Err? ==> r.error == TypeError
    ensures r.Ok? ==> r.value.attrs - {DateAdded} == song.attrs - {DateAdded}
    ensures r.Ok? ==> DateAdded in r.value.attrs && r.value.attrs[DateAdded].DateTime?
    ensures r.Ok? && gen == Packaged ==>
      r.value.attrs[DateAdded] == DateTime(Midnight(if v.Date? then v.d else v.t.date))
    ensures r.Ok? && gen == Legacy ==> r.value.attrs[DateAdded] == v
  {
    match (gen, v)
    case (Packaged, Date(d)) => Ok(Song(song.attrs[DateAdded := DateTime(Midnight(d))]))
    case (_, DateTime(t)) =>
      Ok(Song(song.attrs[DateAdded := DateTime(if gen == Packaged then Midnight(t.date) else t)]))
    case _ => Err(TypeError)
  }

  /** One turn of the `__init__` loop: normalise the key, drop it unless
      it names a field, cast the value, fall back to the raw value when
      the packaged cast gives `None`, and assign it (through the setter
      for the date). */
  function Step(gen: Generation, src: Source, song: Song, kv: (string, Value)): Result<Song> {
    match FieldOf(ResolveKey(src, kv.0))
    case None => Ok(song)
    case Some(f) =>
      match Cast(src, f, kv.1)
      case Err(e) => Err(e)
      case Ok(c) =>
        var value := if gen == Packaged && c == Null then kv.1 else c;
        if f == DateAdded then SetDateAdded(gen, song, value)
        else Ok(Song(song.attrs[f := value]))
  }

  /** What `__init__` produces from its keyword arguments: the steps in
      call order, stopping at the first exception. */
  function Build(gen: Generation, src: Source, kwargs: Kwargs): Result<Song> {
    if |kwargs| == 0 then Ok(EMPTY)
    else
      match Build(gen, src, kwargs[..|kwargs| - 1])
      case Err(e) => Err(e)
      case Ok(s) => Step(gen, src, s, kwargs[|kwargs| - 1])
  }

  /** `BaseSong.__init__`: the loop over the keyword arguments. */
  method Construct(gen: Generation, src: Source, kwargs: Kwargs) returns (r: Result<Song>)
    ensures r == Build(gen, src, kwargs)
  {
    var song := EMPTY;
    var i := 0;
    while i < |kwargs|
      invariant 0 <= i <= |kwargs|
      invariant Build(gen, src, kwargs[..i]) == Ok(song)
    {
      BuildSnoc(gen, src, kwargs[..i], kwargs[i]);
      TakeSnoc(kwargs, i);
      var next := SetKeyword(gen, src, song, kwargs[i].0, kwargs[i].1);
      if next.Err? {
        BuildErrSticky(gen, src, kwargs, i + 1);
        return next;
      }
      song := next.value;
      i := i + 1;
    }
    TakeAll(kwargs);
    return Ok(song);
  }

  /** The body of the `__init__` loop for one keyword. */
  method SetKeyword(gen: Generation, src: Source, song: Song, k: string, v: Value) returns (r: Result<Song>)
    ensures r == Step(gen, src, song, (k, v))
  {
    var field := FieldOf(ResolveKey(src, k));
    if field.None? {
      return Ok(song);
    }
    var cast := Cast(src, field.value, v);
    if cast.Err? {
      return Err(cast.error);
    }
    var value := cast.value;
    if gen == Packaged && value == Null {
      value := v;
    }
    if field.value == DateAdded {
      r := SetDateAdded(gen, song, value);
    } else {
      r := Ok(Song(song.attrs[field.value := value]));
    }
  }

  // ---------------------------------------------------------------------
  // Properties of construction

  /** Each stored value has its field's declared type, and a packaged date
      is always a midnight `datetime`. */
  predicate WellTyped(song: Song) {
    forall f :: f in song.attrs ==> TypedAs(f, song.attrs[f])
  }

  predicate TypedAs(f: Field, v: Value) {
    match KindOf(f)
    case TextKind => v.Str?
    case IntKind => v.Int?
    case DateKind => v.DateTime? && v.t == Midnight(v.t.date)
  }

  /** Whatever the source and the raw values, a packaged song that was
      built holds only values of the declared types. */
  lemma {:induction false} BuildWellTyped(src: Source, kwargs: Kwargs)
    requires Build(Packaged, src, kwargs).Ok?
    ensures WellTyped(Build(Packaged, src, kwargs).value)
  {
    if |kwargs| > 0 {
      var init := kwargs[..|kwargs| - 1];
      BuildWellTyped(src, init);
      StepWellTyped(src, Build(Packaged, src, init).value, kwargs[|kwargs| - 1]);
    }
  }

  /** A packaged step keeps a song well typed. */
  lemma StepWellTyped(src: Source, song: Song, kv: (string, Value))
    requires WellTyped(song) && Step(Packaged, src, song, kv).Ok?
    ensures WellTyped(Step(Packaged, src, song, kv).value)
  {
    var r := Step(Packaged, src, song, kv).value;
    match FieldOf(ResolveKey(src, kv.0))
    case None =>
    case Some(f) =>
      var c := Cast(src, f, kv.1).value;
      if f == DateAdded {
        var value := if c == Null then kv.1 else c;
        assert r == SetDateAdded(Packaged, song, value).value;
        forall g | g in r.attrs ensures TypedAs(g, r.attrs[g]) {
          if g != DateAdded {
            assert g in song.attrs - {DateAdded};
          }
        }
      } else {
        assert c != Null;
        assert r.attrs == song.attrs[f := c];
      }
  }

  /** One more keyword is one more step. */
  lemma BuildSnoc(gen: Generation, src: Source, kwargs: Kwargs, kv: (string, Value))
    ensures Build(gen, src, kwargs).Err? ==> Build(gen, src, kwargs + [kv]) == Build(gen, src, kwargs)
    ensures Build(gen, src, kwargs).Ok? ==>
      Build(gen, src, kwargs + [kv]) == Step(gen, src, Build(gen, src, kwargs).value, kv)
  {
    SnocTake(kwargs, kv);
  }

  /** Once a step raises, the later keywords are never looked at. */
  lemma {:induction false} BuildErrSticky(gen: Generation, src: Source, kwargs: Kwargs, i: nat)
    requires i <= |kwargs| && Build(gen, src, kwargs[..i]).Err?
    ensures Build(gen, src, kwargs) == Build(gen, src, kwargs[..i])
    decreases |kwargs| - i
  {
    if i < |kwargs| {
      BuildSnoc(gen, src, kwargs[..i], kwargs[i]);
      TakeSnoc(kwargs, i);
      BuildErrSticky(gen, src, kwargs, i + 1);
    } else {
      TakeAll(kwargs);
    }
  }

  /** A keyword whose normalised name is not a field is ignored wherever
      it stands: no exception and no attribute. */
  lemma {:induction false} UnknownKeyIgnored(gen: Generation, src: Source, before: Kwargs, k: string, v: Value, after: Kwargs)
    requires FieldOf(ResolveKey(src, k)).None?
    ensures Build(gen, src, before + [(k, v)] + after) == Build(gen, src, before + after)
    decreases |after|
  {
    if |after| == 0 {
      assert before + [(k, v)] + after == before + [(k, v)];
      assert before + after == before;
      BuildSnoc(gen, src, before, (k, v));
    } else {
      var last := after[|after| - 1];
      var init := after[..|after| - 1];
      UnknownKeyIgnored(gen, src, before, k, v, init);
      SplitLast(before + [(k, v)], after);
      SplitLast(before, after);
      BuildSnocSame(gen, src, before + [(k, v)] + init, before + init, last);
    }
  }

  /** Keyword lists that build the same song still do after one more
      keyword. */
  lemma BuildSnocSame(gen: Generation, src: Source, a: Kwargs, b: Kwargs, kv: (string, Value))
    requires Build(gen, src, a) == Build(gen, src, b)
    ensures Build(gen, src, a + [kv]) == Build(gen, src, b + [kv])
  {
    BuildSnoc(gen, src, a, kv);
    BuildSnoc(gen, src, b, kv);
  }

  /** Every attribute a built song holds was named by some keyword. */
  lemma {:induction false} BuildOnlyNamedFields(gen: Generation, src: Source, kwargs: Kwargs, f: Field)
    requires Build(gen, src, kwargs).Ok? && f in Build(gen, src, kwargs).value.attrs
    ensures exists i :: 0 <= i < |kwargs| && FieldOf(ResolveKey(src, kwargs[i].0)) == Some(f)
  {
    var init := kwargs[..|kwargs| - 1];
    var last := kwargs[|kwargs| - 1];
    if FieldOf(ResolveKey(src, last.0)) != Some(f) {
      BuildOnlyNamedFields(gen, src, init, f);
      var i :| 0 <= i < |init| && FieldOf(ResolveKey(src, init[i].0)) == Some(f);
      assert kwargs[i] == init[i];
    }
  }

  /** The value a keyword leaves in its field, by generation: the packaged
      cast falls back to the raw value when it gives `None`; the date goes
      through the setter. */
  function Stored(gen: Generation, src: Source, f: Field, v: Value): Result<Value> {
    match Cast(src, f, v)
    case Err(e) => Err(e)
    case Ok(c) =>
      var value := if gen == Packaged && c == Null then v else c;
      if f != DateAdded then Ok(value)
      else match SetDateAdded(gen, EMPTY, value)
        case Err(e) => Err(e)
        case Ok(s) => Ok(s.attrs[DateAdded])
  }

  /** The last keyword naming a field decides its value; the fields it does
      not name keep theirs. */
  lemma StepAssigns(gen: Generation, src: Source, song: Song, k: string, v: Value)
    requires FieldOf(ResolveKey(src, k)).Some?
    ensures Stored(gen, src, FieldOf(ResolveKey(src, k)).value, v).Err? ==>
      Step(gen, src, song, (k, v)) == Err(Stored(gen, src, FieldOf(ResolveKey(src, k)).value, v).error)
    ensures Stored(gen, src, FieldOf(ResolveKey(src, k)).value, v).Ok? ==>
      Step(gen, src, song, (k, v)) ==
        Ok(Song(song.attrs[FieldOf(ResolveKey(src, k)).value := Stored(gen, src, FieldOf(ResolveKey(src, k)).value, v).value]))
  {
  }

  /** Built from a single `datetime` keyword, a `MacOSMusicSong` keeps the
      raw value (its `normalize_datetime` gives `None`) and the packaged
      setter makes it midnight; the legacy model assigns the `None` and
      the strict setter raises. */
  lemma MacOSDate(t: Moment)
    ensures Build(Packaged, MacOS, [("date_added", DateTime(t))])
      == Ok(Song(map[DateAdded := DateTime(Midnight(t.date))]))
    ensures Build(Legacy, MacOS, [("date_added", DateTime(t))]) == Err(TypeError)
  {
    MacOSDatePackaged(t);
    MacOSDateLegacy(t);
  }

  lemma MacOSDatePackaged(t: Moment)
    ensures Build(Packaged, MacOS, [("date_added", DateTime(t))])
      == Ok(Song(map[DateAdded := DateTime(Midnight(t.date))]))
  {
    var kv := ("date_added", DateTime(t));
    assert [] + [kv] == [kv];
    BuildSnoc(Packaged, MacOS, [], kv);
    assert FieldOf(ResolveKey(MacOS, kv.0)) == Some(DateAdded);
    assert Cast(MacOS, DateAdded, kv.1) == Ok(Null);
    assert Step(Packaged, MacOS, EMPTY, kv) == SetDateAdded(Packaged, EMPTY, kv.1);
    assert EMPTY.attrs[DateAdded := DateTime(Midnight(t.date))] == map[DateAdded := DateTime(Midnight(t.date))];
  }

  lemma MacOSDateLegacy(t: Moment)
    ensures Build(Legacy, MacOS, [("date_added", DateTime(t))]) == Err(TypeError)
  {
    var kv := ("date_added", DateTime(t));
    assert [] + [kv] == [kv];
    BuildSnoc(Legacy, MacOS, [], kv);
    assert FieldOf(ResolveKey(MacOS, kv.0)) == Some(DateAdded);
    assert Cast(MacOS, DateAdded, kv.1) == Ok(Null);
    assert Step(Legacy, MacOS, EMPTY, kv) == SetDateAdded(Legacy, EMPTY, Null);
  }

  /** A library-export date string casts to the moment it writes out. */
  lemma TunesDateCast(t: Moment)
    requires ValidMoment(t)
    ensures Cast(Tunes, DateAdded, Str(IsoZ(t))) == Ok(DateTime(t))
  {
    IsoZRoundTrip(t);
  }

  lemma DateStep(gen: Generation, src: Source, k: string, v: Value, x: Value)
    requires FieldOf(ResolveKey(src, k)) == Some(DateAdded)
    requires Cast(src, DateAdded, v) == Ok(x) && x != Null
    ensures Build(gen, src, [(k, v)]) == SetDateAdded(gen, EMPTY, x)
  {
    assert [] + [(k, v)] == [(k, v)];
    BuildSnoc(gen, src, [], (k, v));
  }

  /** A library-export date (under any key that normalises to
      `date_added`, such as `Date Added`) keeps its time of day under the
      legacy setter and loses it under the packaged one. */
  lemma TunesDate(k: string, t: Moment)
    requires ResolveKey(Tunes, k) == "date_added" && ValidMoment(t)
    ensures Build(Packaged, Tunes, [(k, Str(IsoZ(t)))])
      == Ok(Song(map[DateAdded := DateTime(Midnight(t.date))]))
    ensures Build(Legacy, Tunes, [(k, Str(IsoZ(t)))])
      == Ok(Song(map[DateAdded := DateTime(t)]))
  {
    TunesDateCast(t);
    DateKeeps(Packaged, k, IsoZ(t), t);
    DateKeeps(Legacy, k, IsoZ(t), t);
  }

  lemma DateKeeps(gen: Generation, k: string, d: string, t: Moment)
    requires ResolveKey(Tunes, k) == "date_added"
    requires Cast(Tunes, DateAdded, Str(d)) == Ok(DateTime(t))
    ensures Build(gen, Tunes, [(k, Str(d))])
      == Ok(Song(map[DateAdded := DateTime(if gen == Packaged then Midnight(t.date) else t)]))
  {
    FieldOfName(DateAdded);
    DateStep(gen, Tunes, k, Str(d), DateTime(t));
    var x := DateTime(if gen == Packaged then Midnight(t.date) else t);
    assert SetDateAdded(gen, EMPTY, DateTime(t)) == Ok(Song(EMPTY.attrs[DateAdded := x]));
    assert EMPTY.attrs[DateAdded := x] == map[DateAdded := x];
  }

  // ---------------------------------------------------------------------
  // Attribute access

  /** The class attribute a field falls back to when the instance has not
      set it. `name` and `location` have no default; the year and the date
      are evaluated once, from `today`, when the class is defined. */
  function ClassDefault(f: Field, today: CalDate): Option<Value> {
    match f
    case Name | Location => None
    case Artist | Genre => Some(Null)
    case Bpm | PlayedCount | Rating => Some(Int(0))
    case Year => Some(Int(today.year))
    case DateAdded => Some(Date(today))
  }

  /** Reading a field: the instance value, else the class default, else
      `AttributeError` (modelled as `None`). */
  function AttrOf(song: Song, f: Field, today: CalDate): (r: Option<Value>)
    ensures f in song.attrs ==> r == Some(song.attrs[f])
    ensures r.None? <==> f !in song.attrs && (f == Name || f == Location)
  {
    if f in song.attrs then Some(song.attrs[f]) else ClassDefault(f, today)
  }

  /** `dataclasses.asdict(song)`: every dataclass field in declaration
      order under its own name; reading an unset `name` or `location`
      raises `AttributeError`. */
  function AsDict(song: Song, today: CalDate): (r: Result<Kwargs>)
    ensures r.Ok? <==> Name in song.attrs && Location in song.attrs
    ensures r.Ok? ==> (|r.value| == |FIELDS|
      && forall i :: 0 <= i < |FIELDS| ==>
           r.value[i] == (InstanceKey(FIELDS[i]), AttrOf(song, FIELDS[i], today).value))
  {
    if Name !in song.attrs || Location !in song.attrs then Err(AttributeError)
    else Ok(seq(|FIELDS|, i requires 0 <= i < |FIELDS| =>
      (InstanceKey(FIELDS[i]), AttrOf(song, FIELDS[i], today).value)))
  }

  /** `vars(song)`: the attributes the instance set itself, under their
      instance-dictionary keys. Python lists them in the order `__init__`
      first assigned them; the model lists them in field declaration
      order, since a song does not record the order of its keywords. */
  function Vars(song: Song): Kwargs {
    VarsFrom(song, FIELDS)
  }

  function VarsFrom(song: Song, fs: seq<Field>): Kwargs {
    if |fs| == 0 then []
    else if fs[0] in song.attrs then [(InstanceKey(fs[0]), song.attrs[fs[0]])] + VarsFrom(song, fs[1..])
    else VarsFrom(song, fs[1..])
  }

  // ---------------------------------------------------------------------
  // __str__

  /** Truthiness of a value. */
  predicate Truthy(v: Value) {
    match v
    case Str(s) => s != ""
    case Int(i) => i != 0
    case Date(_) | DateTime(_) => true
    case Null => false
  }

  /** `float(rating)` as far as it matters here: numbers and decimal
      integer text convert, `None` and dates raise `TypeError`, other
      text raises `ValueError`. */
  function RatingNumber(v: Value): Result<int> {
    match v
    case Int(i) => Ok(i)
    case Str(s) => ParseInt(s)
    case _ => Err(TypeError)
  }

  /** The exception `__str__` raises, if any: an unset `name` raises
      `AttributeError`; `None` under a width specifier (`name`, `year`)
      raises `TypeError`; a truthy rating must convert to a number. */
  function StrError(song: Song, today: CalDate): (e: Option<Error>)
    ensures Name !in song.attrs ==> e == Some(AttributeError)
    ensures WellTyped(song) ==> (e.None? <==> Name in song.attrs)
  {
    match AttrOf(song, Name, today)
    case None => Some(AttributeError)
    case Some(n) =>
      if n.Null? || AttrOf(song, Year, today).value.Null? then Some(TypeError)
      else
        var rating := AttrOf(song, Rating, today).value;
        if Truthy(rating) && RatingNumber(rating).Err? then Some(RatingNumber(rating).error)
        else None
  }
}
