/** The prototype in `music_manager/__main__.py`: a `TunesSong` that keeps
    a keyword only when its raw name is already a field name, stores the
    value as given, and a `TunesFileReader.get_songs` that scans the whole
    library export eagerly, printing each song as it goes. */
module Prototype {
  import opened Py
  import opened Song
  import opened TunesXml

  /** One turn of the prototype `__init__` loop: a keyword whose raw name
      is not a field name is skipped; otherwise the attribute named by its
      `_normalize_field` (the field itself, since field names are already
      normalised) is set to the value, uncast. */
  function ProtoStep(song: Song, kv: (string, Value)): Song {
    match FieldOf(kv.0)
    case None => song
    case Some(f) =>
      TunesNormalizeFieldName(f);
      assert FieldOf(FieldName(f)) == Some(f);
      Song(song.attrs[FieldOf(TunesNormalize(kv.0)).value := kv.1])
  }

  /** What the prototype `__init__` produces: it never raises. */
  function ProtoBuild(kwargs: Kwargs): Song {
    if |kwargs| == 0 then EMPTY
    else ProtoStep(ProtoBuild(kwargs[..|kwargs| - 1]), kwargs[|kwargs| - 1])
  }

  /** The prototype `__init__` loop. */
  method ProtoConstruct(kwargs: Kwargs) returns (song: Song)
    ensures song == ProtoBuild(kwargs)
  {
    song := EMPTY;
    for i := 0 to |kwargs|
      invariant song == ProtoBuild(kwargs[..i])
    {
      TakeSnoc(kwargs, i);
      var (k, v) := kwargs[i];
      var field := FieldOf(k);
      if field.None? {
        continue;
      }
      TunesNormalizeFieldName(field.value);
      var attribute := FieldOf(TunesNormalize(k));
      song := Song(song.attrs[attribute.value := v]);
    }
    TakeAll(kwargs);
  }

  /** A field is set exactly when some keyword carries its exact name, and
      it holds the value of the last such keyword, as given. */
  lemma {:induction false} ProtoBuildMeaning(kwargs: Kwargs, f: Field)
    ensures f in ProtoBuild(kwargs).attrs <==> FieldName(f) in Keys(kwargs)
    ensures Lookup(kwargs, FieldName(f)) ==
      if f in ProtoBuild(kwargs).attrs then Some(ProtoBuild(kwargs).attrs[f]) else None
  {
    if |kwargs| > 0 {
      var init := kwargs[..|kwargs| - 1];
      var last := kwargs[|kwargs| - 1];
      ProtoBuildMeaning(init, f);
      assert Keys(kwargs) == Keys(init) + [last.0] by {
        assert kwargs == init + [last];
      }
      ProtoStepField(ProtoBuild(init), last, f);
    }
  }

  /** One step sets the field its keyword names exactly, and only that. */
  lemma ProtoStepField(song: Song, kv: (string, Value), f: Field)
    ensures kv.0 == FieldName(f) ==> f in ProtoStep(song, kv).attrs && ProtoStep(song, kv).attrs[f] == kv.1
    ensures kv.0 != FieldName(f) ==>
      (f in ProtoStep(song, kv).attrs <==> f in song.attrs)
      && (f in song.attrs ==> ProtoStep(song, kv).attrs[f] == song.attrs[f])
  {
    match FieldOf(kv.0)
    case None =>
    case Some(g) =>
      TunesNormalizeFieldName(g);
      assert FieldOf(FieldName(g)) == Some(g);
      if kv.0 == FieldName(f) {
        assert FieldOf(FieldName(f)) == Some(f);
      }
  }

  /** The keys of a library export are capitalised ("Name", "Play Count",
      "Date Added"), and no field name is, so a prototype song built from
      them holds no attribute at all. */
  lemma {:induction false} ProtoIgnoresCapitalised(kwargs: Kwargs)
    requires forall i :: 0 <= i < |kwargs| ==> |kwargs[i].0| > 0 && 'A' <= kwargs[i].0[0] <= 'Z'
    ensures ProtoBuild(kwargs) == EMPTY
  {
    if |kwargs| > 0 {
      var init := kwargs[..|kwargs| - 1];
      assert forall i :: 0 <= i < |init| ==> init[i] == kwargs[i];
      ProtoIgnoresCapitalised(init);
      CapitalisedNotField(kwargs[|kwargs| - 1].0);
    }
  }

  /** Every field name starts with a lower-case letter. */
  lemma CapitalisedNotField(k: string)
    requires |k| > 0 && 'A' <= k[0] <= 'Z'
    ensures FieldOf(k).None?
  {
  }

  /** The same export key reaches the field in the packaged code. */
  lemma ExportNameGenerations(s: string)
    ensures ProtoBuild([("Name", Str(s))]) == EMPTY
    ensures Build(Packaged, Tunes, [("Name", Str(s))]) == Ok(Song(map[Name := Str(s)]))
  {
    ProtoIgnoresCapitalised([("Name", Str(s))]);
    TunesNameKey(s);
  }

  /** The packaged code, reading an export, maps `Name` to the name field. */
  lemma TunesNameKey(s: string)
    ensures Build(Packaged, Tunes, [("Name", Str(s))]) == Ok(Song(map[Name := Str(s)]))
  {
    var kv := ("Name", Str(s));
    assert TunesNormalize("Name") == "name" by {
      NormalizeChars("Name", "name");
    }
    assert ResolveKey(Tunes, kv.0) == FieldName(Name);
    FieldOfName(Name);
    assert Cast(Tunes, Name, kv.1) == Ok(Str(s));
    assert Step(Packaged, Tunes, EMPTY, kv) == Ok(Song(EMPTY.attrs[Name := Str(s)]));
    assert [] + [kv] == [kv];
    BuildSnoc(Packaged, Tunes, [], kv);
    assert EMPTY.attrs[Name := Str(s)] == map[Name := Str(s)];
  }

  // ---------------------------------------------------------------------
  // get_songs

  /** The songs of the runs, one each. */
  function ProtoSongs(runs: seq<Kwargs>): (songs: seq<Song>)
    ensures |songs| == |runs| && forall i :: 0 <= i < |runs| ==> songs[i] == ProtoBuild(runs[i])
  {
    seq(|runs|, i requires 0 <= i < |runs| => ProtoBuild(runs[i]))
  }

  /** The exception `print(x)` raises on the first song that cannot be
      formatted. */
  function FirstPrintError(songs: seq<Song>, today: CalDate): (e: Option<Error>)
    ensures e.None? <==> forall i :: 0 <= i < |songs| ==> StrError(songs[i], today).None?
    ensures e.Some? ==> exists i :: (0 <= i < |songs| && StrError(songs[i], today) == e
      && forall j :: 0 <= j < i ==> StrError(songs[j], today).None?)
  {
    if |songs| == 0 then None
    else if StrError(songs[0], today).Some? then StrError(songs[0], today)
    else
      var e := FirstPrintError(songs[1..], today);
      assert forall i :: 1 <= i < |songs| ==> songs[1..][i - 1] == songs[i];
      if e.Some? then
        var i :| 0 <= i < |songs[1..]| && StrError(songs[1..][i], today) == e
          && forall j :: 0 <= j < i ==> StrError(songs[1..][j], today).None?;
        assert StrError(songs[i + 1], today) == e;
        e
      else e
  }

  /** What `get_songs` returns or raises: the tracks `dict` must exist; the
      printing of the songs raises before the scan's own exception, which
      can only come after the last run; otherwise every song, in order. */
  function GetSongsSpec(root: Elem, today: CalDate): Result<seq<Song>> {
    match TracksDict(root)
    case Err(e) => Err(e)
    case Ok(d) =>
      var sc := ScanAll(d.children);
      var songs := ProtoSongs(sc.runs);
      match FirstPrintError(songs, today)
      case Some(e) => Err(e)
      case None => if sc.error.Some? then Err(sc.error.value) else Ok(songs)
  }

  /** On a well-formed export whose songs all format, `get_songs` returns
      one song per track in document order, each built from its track's
      own keys and values. */
  lemma GetSongsWellFormed(root: Elem, today: CalDate)
    requires TracksDict(root).Ok? && WellFormed(TracksDict(root).value.children)
    requires forall i :: 0 <= i < |ScanAll(TracksDict(root).value.children).runs| ==>
      StrError(ProtoBuild(ScanAll(TracksDict(root).value.children).runs[i]), today).None?
    ensures GetSongsSpec(root, today).Ok?
    ensures var items := TracksDict(root).value.children; var songs := GetSongsSpec(root, today).value;
      |songs| == |Tracks(items)| &&
      forall i :: 0 <= i < |songs| ==> RunKwargs(Tracks(items)[i]).Ok? && songs[i] == ProtoBuild(RunKwargs(Tracks(items)[i]).value)
  {
    var items := TracksDict(root).value.children;
    ScanWellFormed(items);
  }

  /** The prototype reader of a library export. */
  class TunesFileReader {
    const tree: Elem

    constructor(tree: Elem)
      ensures this.tree == tree
    {
      this.tree := tree;
    }

    /** `get_songs`. */
    method GetSongs(today: CalDate) returns (r: Result<seq<Song>>)
      ensures r == GetSongsSpec(tree, today)
    {
      var d := TracksDict(tree);
      if d.Err? {
        return Err(d.error);
      }
      var items := d.value.children;
      var songs: seq<Song> := [];
      var source: Option<Elem> := None;
      for i := 0 to |items|
        invariant Collected(items, i, songs, source, today)
      {
        var stop: Option<Error>;
        songs, source, stop := CollectItem(items, i, songs, source, today);
        if stop.Some? {
          return Err(stop.value);
        }
      }
      TakeAll(items);
      return Ok(songs);
    }
  }

  /** What holds after the first `i` items: no exception, `source` is the
      remembered item, one printed song per run. */
  ghost predicate Collected(items: seq<Elem>, i: nat, songs: seq<Song>, source: Option<Elem>, today: CalDate) {
    && i <= |items|
    && ScanAll(items[..i]).error.None? && ScanAll(items[..i]).last == source
    && songs == ProtoSongs(ScanAll(items[..i]).runs)
    && FirstPrintError(songs, today).None?
  }

  /** One turn of the `for item in s` loop of `get_songs`. */
  method CollectItem(items: seq<Elem>, i: nat, songs: seq<Song>, source: Option<Elem>, today: CalDate)
    returns (songs': seq<Song>, source': Option<Elem>, stop: Option<Error>)
    requires i < |items| && Collected(items, i, songs, source, today)
    ensures stop.None? ==> Collected(items, i + 1, songs', source', today)
    ensures stop.Some? ==> Err(stop.value) == ItemsResult(items, today)
  {
    ghost var sc := ScanAll(items[..i]);
    ScanAt(items, i);
    songs', source', stop := songs, source, None;
    var item := items[i];
    if |item.children| == 0 {
      return;
    }
    if item.children[0].text == Some("Track ID") {
      source' := Some(item);
    }
    if source'.None? {
      ScanStops(items, i + 1, today);
      return songs, source', Some(UnboundLocalError);
    }
    var kw := RunKwargs(source'.value);
    if kw.Err? {
      ScanStops(items, i + 1, today);
      return songs, source', Some(kw.error);
    }
    assert ScanAll(items[..i + 1]) == Scan(sc.runs + [kw.value], None, source');
    songs', stop := CollectRun(items, i, songs, kw.value, source', today);
  }

  /** The rest of that turn once the item gave a run: build the song and
      print it. */
  method CollectRun(items: seq<Elem>, i: nat, songs: seq<Song>, kw: Kwargs, source: Option<Elem>, today: CalDate)
    returns (songs': seq<Song>, stop: Option<Error>)
    requires i < |items| && Collected(items, i, songs, ScanAll(items[..i]).last, today)
    requires ScanAll(items[..i + 1]) == Scan(ScanAll(items[..i]).runs + [kw], None, source)
    ensures stop.None? ==> Collected(items, i + 1, songs', source, today)
    ensures stop.Some? ==> Err(stop.value) == ItemsResult(items, today)
  {
    var x := ProtoConstruct(kw);
    assert ProtoSongs(ScanAll(items[..i]).runs + [kw]) == songs + [x];
    var printed := StrError(x, today);
    if printed.Some? {
      PrintStops(items, i + 1, songs + [x], today);
      return songs, printed;
    }
    songs' := songs + [x];
    assert FirstPrintError(songs', today).None?;
    stop := None;
  }

  /** `get_songs` after the tracks `dict` was found. */
  function ItemsResult(items: seq<Elem>, today: CalDate): Result<seq<Song>> {
    var sc := ScanAll(items);
    var songs := ProtoSongs(sc.runs);
    match FirstPrintError(songs, today)
    case Some(e) => Err(e)
    case None => if sc.error.Some? then Err(sc.error.value) else Ok(songs)
  }

  /** A scan exception in a prefix, after songs that all printed, is what
      `get_songs` raises. */
  lemma ScanStops(items: seq<Elem>, i: nat, today: CalDate)
    requires i <= |items| && ScanAll(items[..i]).error.Some?
    requires FirstPrintError(ProtoSongs(ScanAll(items[..i]).runs), today).None?
    ensures ItemsResult(items, today) == Err(ScanAll(items[..i]).error.value)
  {
    ScanPrefix(items, i);
  }

  /** A song of a prefix that fails to print, after songs that printed, is
      what `get_songs` raises. */
  lemma PrintStops(items: seq<Elem>, i: nat, songs: seq<Song>, today: CalDate)
    requires i <= |items| && songs == ProtoSongs(ScanAll(items[..i]).runs) && |songs| > 0
    requires FirstPrintError(songs[..|songs| - 1], today).None?
    requires StrError(songs[|songs| - 1], today).Some?
    ensures ItemsResult(items, today) == Err(StrError(songs[|songs| - 1], today).value)
  {
    ScanPrefix(items, i);
    var all := ProtoSongs(ScanAll(items).runs);
    var k := |songs| - 1;
    assert forall j :: 0 <= j <= k ==> all[j] == songs[j];
    assert forall j :: 0 <= j < k ==> songs[..k][j] == songs[j];
    FirstPrintErrorAt(all, k, today);
  }

  /** The first song that fails to print decides the exception. */
  lemma {:induction false} FirstPrintErrorAt(songs: seq<Song>, k: nat, today: CalDate)
    requires k < |songs| && StrError(songs[k], today).Some?
    requires forall j :: 0 <= j < k ==> StrError(songs[j], today).None?
    ensures FirstPrintError(songs, today) == StrError(songs[k], today)
  {
    if k > 0 {
      assert forall j :: 0 <= j < k - 1 ==> songs[1..][j] == songs[j + 1];
      FirstPrintErrorAt(songs[1..], k - 1, today);
    }
  }
}
