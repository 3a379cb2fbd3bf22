/** The Music app as the adapters of `musicmanager/adapter.py` drive it,
    and `MacOSMusicReadAdapter` / `MacOSMusicWriteAdapter` on top of it.
    The app is a library of tracks and a current position; `jump` accepts
    the positions 1..n and -n..-1 (counted from the end) and faults on
    anything else, position 0 included. */
module Player {
  import opened Py
  import opened Song
  import opened Reader
  import opened SongOps

  /** A track property: one the client can read, or one whose read raises
      (`TypeError` or `KeyError`). */
  datatype Cell = Readable(v: Value) | Unreadable

  /** A track: its properties in the order the client lists them. */
  type Track = seq<(string, Cell)>

  /** The track a jump lands on, if the position exists. */
  function JumpTarget(n: nat, index: int): (r: Option<nat>)
    ensures r.Some? <==> (1 <= index <= n || -(n as int) <= index <= -1)
    ensures r.Some? ==> 1 <= r.value <= n
    ensures r.Some? && index > 0 ==> r.value == index
    ensures index == -1 && n > 0 ==> r == Some(n)
  {
    if 1 <= index <= n then Some(index)
    else if -(n as int) <= index <= -1 then Some(n + index + 1)
    else None
  }

  /** The dict the reader builds from a track: every readable property,
      a repeated name keeping its first place and its last value. */
  function ReadableKwargs(track: Track): Kwargs {
    if |track| == 0 then []
    else
      var kv := ReadableKwargs(track[..|track| - 1]);
      var (k, c) := track[|track| - 1];
      if c.Unreadable? then kv else DictInsert(kv, k, c.v)
  }

  /** One more property of the track: inserted when readable. */
  lemma ReadableKwargsSnoc(track: Track, j: nat)
    requires j < |track|
    ensures ReadableKwargs(track[..j + 1]) ==
      if track[j].1.Readable? then DictInsert(ReadableKwargs(track[..j]), track[j].0, track[j].1.v)
      else ReadableKwargs(track[..j])
  {
    TakeSnoc(track, j);
  }

  /** The dict holds each readable property once, with a value the track
      shows for it, and misses none of them. */
  lemma {:induction false} ReadableKwargsMeaning(track: Track)
    ensures Distinct(Keys(ReadableKwargs(track)))
    ensures forall i :: 0 <= i < |ReadableKwargs(track)| ==>
      (ReadableKwargs(track)[i].0, Readable(ReadableKwargs(track)[i].1)) in track
    ensures forall j :: 0 <= j < |track| && track[j].1.Readable? ==> track[j].0 in Keys(ReadableKwargs(track))
  {
    if |track| > 0 {
      ReadableKwargsMeaning(track[..|track| - 1]);
      ReadableKwargsSound(track);
      ReadableKwargsComplete(track);
    }
  }

  /** Every pair of the dict is a readable property of the track. */
  predicate ShownBy(kv: Kwargs, track: Track) {
    forall i :: 0 <= i < |kv| ==> (kv[i].0, Readable(kv[i].1)) in track
  }

  /** The step of that induction for the values: each pair comes from the
      last property or from the dict of the properties before it. */
  lemma ReadableKwargsSound(track: Track)
    requires |track| > 0
    requires ShownBy(ReadableKwargs(track[..|track| - 1]), track[..|track| - 1])
    ensures ShownBy(ReadableKwargs(track), track)
  {
    var init := track[..|track| - 1];
    var kv := ReadableKwargs(init);
    var (k, c) := track[|track| - 1];
    var r := ReadableKwargs(track);
    assert r == if c.Unreadable? then kv else DictInsert(kv, k, c.v);
    forall i | 0 <= i < |r| ensures (r[i].0, Readable(r[i].1)) in track {
      if c.Readable? {
        DictInsertEntry(kv, k, c.v, i);
      }
      if c.Readable? && r[i] == (k, c.v) {
        assert track[|track| - 1] == (r[i].0, Readable(r[i].1));
      } else {
        assert r[i] in kv;
        ShownInPrefix(track, kv, r[i]);
      }
    }
  }

  /** A pair of a dict shown by all tracks but the last is shown by the
      track. */
  lemma ShownInPrefix(track: Track, kv: Kwargs, p: (string, Value))
    requires |track| > 0 && ShownBy(kv, track[..|track| - 1]) && p in kv
    ensures (p.0, Readable(p.1)) in track
  {
    var m :| 0 <= m < |kv| && kv[m] == p;
    InPrefix(track, |track| - 1, (p.0, Readable(p.1)));
  }

  /** The step of that induction for the keys: the last property, when
      readable, is inserted, and no earlier key is lost. */
  lemma ReadableKwargsComplete(track: Track)
    requires |track| > 0
    requires var init := track[..|track| - 1];
      forall j :: 0 <= j < |init| && init[j].1.Readable? ==> init[j].0 in Keys(ReadableKwargs(init))
    ensures forall j :: 0 <= j < |track| && track[j].1.Readable? ==> track[j].0 in Keys(ReadableKwargs(track))
  {
    var init := track[..|track| - 1];
    var kv := ReadableKwargs(init);
    var (k, c) := track[|track| - 1];
    var r := ReadableKwargs(track);
    assert r == if c.Unreadable? then kv else DictInsert(kv, k, c.v);
    forall j | 0 <= j < |track| && track[j].1.Readable? ensures track[j].0 in Keys(r) {
      if j < |init| {
        assert track[j] == init[j];
        assert track[j].0 in Keys(kv);
      } else {
        assert track[j] == (k, c);
        if k !in Keys(kv) {
          assert Keys(r)[|Keys(kv)|] == k;
        }
      }
    }
  }

  /** Setting a property the track has; setting any other name raises
      `AttributeError` and changes nothing. */
  function SetField(track: Track, f: string, v: Value): (t: Track)
    ensures Keys(t) == Keys(track)
  {
    if f in Keys(track) then DictInsert(track, f, Readable(v)) else track
  }

  /** `set_song_field`: a `None` value is skipped. */
  function Push(track: Track, f: string, v: Value): Track {
    if v == Null then track else SetField(track, f, v)
  }

  /** The app: its library and the current position (0 while nothing is
      selected). */
  class MusicApp {
    var tracks: seq<Track>
    var current: nat

    ghost predicate Valid()
      reads this
    {
      current <= |tracks| && forall i :: 0 <= i < |tracks| ==> Distinct(Keys(tracks[i]))
    }

    constructor(library: seq<Track>)
      requires forall i :: 0 <= i < |library| ==> Distinct(Keys(library[i]))
      ensures Valid() && tracks == library && current == 0
    {
      tracks := library;
      current := 0;
    }

    /** `jump(index)`: true when the position exists. */
    method Jump(index: int) returns (ok: bool)
      requires Valid()
      modifies this
      ensures Valid() && tracks == old(tracks)
      ensures ok == JumpTarget(|tracks|, index).Some?
      ensures current == if ok then JumpTarget(|tracks|, index).value else old(current)
    {
      var target := JumpTarget(|tracks|, index);
      if target.Some? {
        current := target.value;
        return true;
      }
      return false;
    }

    /** `current_track["index"]`: fails while nothing is selected. */
    method CurrentIndex() returns (r: Result<nat>)
      requires Valid()
      ensures r.Ok? <==> current > 0
      ensures r.Ok? ==> r.value == current && r.value <= |tracks|
      ensures r.Err? ==> r.error == PlayerError
    {
      if current == 0 {
        return Err(PlayerError);
      }
      return Ok(current);
    }

    /** The loop over `current_track.keys()` that copies every readable
      property into a dict. */
    method ReadCurrentTrack() returns (kv: Kwargs)
      requires Valid() && 1 <= current <= |tracks|
      ensures kv == ReadableKwargs(tracks[current - 1])
    {
      var track := tracks[current - 1];
      kv := [];
      var j := 0;
      while j < |track|
        invariant 0 <= j <= |track|
        invariant kv == ReadableKwargs(track[..j])
      {
        ReadableKwargsSnoc(track, j);
        var (k, c) := track[j];
        if c.Readable? {
          kv := DictInsert(kv, k, c.v);
        }
        j := j + 1;
      }
      TakeAll(track);
    }

    /** `current_track.__setattr__(field, value)`: true when the track has
      that property. */
    method SetCurrentField(field: string, value: Value) returns (ok: bool)
      requires Valid() && 1 <= current <= |tracks|
      modifies this
      ensures Valid() && current == old(current)
      ensures ok == (field in Keys(old(tracks)[current - 1]))
      ensures tracks == old(tracks)[current - 1 := SetField(old(tracks)[current - 1], field, value)]
    {
      var track := tracks[current - 1];
      ok := field in Keys(track);
      tracks := tracks[current - 1 := SetField(track, field, value)];
    }
  }

  /** The JSON list of skipped positions kept beside the app. */
  class SkipFile {
    var indices: seq<int>

    constructor(stored: seq<int>)
      ensures indices == stored
    {
      indices := stored;
    }
  }

  /** After saving, the list holds the new position and every earlier one,
      each once, and nothing else. */
  lemma SavedIndices(stored: seq<int>, index: int)
    ensures index in Dedup(stored + [index])
    ensures forall x :: x in stored ==> x in Dedup(stored + [index])
    ensures forall x :: x in Dedup(stored + [index]) ==> x == index || x in stored
    ensures Distinct(Dedup(stored + [index]))
  {
    DedupSpec(stored + [index]);
  }

  // ---------------------------------------------------------------------
  // The reader's enumeration, as a function of the library

  /** The app and the skip file together. */
  datatype PlayerState = PlayerState(tracks: seq<Track>, current: nat, skipped: seq<int>)

  /** `jump_song(index)`: a failed jump leaves the position and records the
      index in the skip file. */
  function JumpState(st: PlayerState, index: int): PlayerState {
    match JumpTarget(|st.tracks|, index)
    case Some(c) => st.(current := c)
    case None => st.(skipped := Dedup(st.skipped + [index]))
  }

  /** The track the j-th yielded song comes from: positions 0 and 1 both
      read track 1, because the jump to position 0 fails and leaves the
      app on the track the jump to 1 selected. */
  function ItemTrack(j: nat): (t: nat)
    ensures t >= 1
  {
    if j == 0 then 1 else j
  }

  /** The dicts `yield_song` reads, one per position 0..n. */
  function PlayerKwargs(tracks: seq<Track>): (kwss: seq<Kwargs>)
    requires |tracks| > 0
    ensures |kwss| == |tracks| + 1
    ensures forall j :: 0 <= j < |kwss| ==> kwss[j] == ReadableKwargs(tracks[ItemTrack(j) - 1])
  {
    seq(|tracks| + 1, j requires 0 <= j <= |tracks| => ReadableKwargs(tracks[ItemTrack(j) - 1]))
  }

  /** The dict read at position i is that of track `c`, the track the jump
      to i selects. */
  lemma PlayerKwargsAt(tracks: seq<Track>, i: nat, c: nat)
    requires 0 < |tracks| && i <= |tracks| && c == ItemTrack(i)
    ensures PlayerKwargs(tracks)[i] == ReadableKwargs(tracks[c - 1])
  {
  }

  /** `MacOSMusicReadAdapter.yield_song` run to the end: nothing and an
      error for an empty library, otherwise one song per position. */
  function PlayerStream(tracks: seq<Track>): Stream {
    if |tracks| == 0 then Stream([], Some(PlayerError))
    else ConstructEach(Packaged, MacOS, PlayerKwargs(tracks))
  }

  /** Where `yield_song` leaves the app and the skip file. */
  function AfterEnumeration(st: PlayerState): PlayerState {
    if |st.tracks| == 0 then st.(skipped := Dedup(st.skipped + [-1]))
    else
      var s := PlayerStream(st.tracks);
      PlayerState(st.tracks, if s.error.None? then |st.tracks| else ItemTrack(|s.items|),
                  Dedup(st.skipped + [0]))
  }

  /** The enumeration yields n + 1 songs for n tracks, the first track
      twice, and the j-th song is built from track `ItemTrack(j)`. */
  lemma PlayerStreamShape(tracks: seq<Track>)
    requires |tracks| > 0 && PlayerStream(tracks).error.None?
    ensures |PlayerStream(tracks).items| == |tracks| + 1
    ensures PlayerStream(tracks).items[0] == PlayerStream(tracks).items[1]
    ensures forall j :: 0 <= j <= |tracks| ==>
      Build(Packaged, MacOS, ReadableKwargs(tracks[ItemTrack(j) - 1])) == Ok(PlayerStream(tracks).items[j])
  {
    var kwss := PlayerKwargs(tracks);
    assert kwss[0] == kwss[1];
  }

  /** The j-th song of an enumeration that ends normally, read from the
      track at index `t`. */
  lemma PlayerStreamItem(tracks: seq<Track>, j: nat, t: nat)
    requires |tracks| > 0 && PlayerStream(tracks).error.None? && j <= |tracks| && t == ItemTrack(j) - 1
    ensures j < |PlayerStream(tracks).items|
    ensures Build(Packaged, MacOS, ReadableKwargs(tracks[t])) == Ok(PlayerStream(tracks).items[j])
  {
    var kwss := PlayerKwargs(tracks);
    assert kwss[j] == ReadableKwargs(tracks[t]);
  }

  /** From position 2 on, the song at position p of an enumeration that
      ends normally was read from track p - 1. */
  lemma SongFromPreviousTrack(tracks: seq<Track>, s: Stream, p: nat)
    requires 2 <= p <= |tracks|
    requires BuiltFrom(Packaged, MacOS, PlayerKwargs(tracks), s) && s.error.None?
    ensures p < |s.items|
    ensures Build(Packaged, MacOS, ReadableKwargs(tracks[p - 2])) == Ok(s.items[p - 1])
  {
    var kwss := PlayerKwargs(tracks);
    PlayerKwargsAt(tracks, p - 1, p - 1);
    assert Build(Packaged, MacOS, kwss[p - 1]) == Ok(s.items[p - 1]);
  }

  /** The read adapter: the app and its skip file. */
  class MacOSMusicReadAdapter {
    const app: MusicApp
    const skipped: SkipFile

    constructor(app: MusicApp, skipped: SkipFile)
      ensures this.app == app && this.skipped == skipped
    {
      this.app := app;
      this.skipped := skipped;
    }

    function State(): PlayerState
      reads app, skipped
    {
      PlayerState(app.tracks, app.current, skipped.indices)
    }

    /** `save_index_reference_to_file`: append, then de-duplicate. */
    method SaveIndexReferenceToFile(index: int)
      modifies skipped
      ensures skipped.indices == Dedup(old(skipped.indices) + [index])
    {
      var stored := skipped.indices;
      stored := stored + [index];
      skipped.indices := Dedup(stored);
    }

    /** `jump_song`: a fault is recorded in the skip file. */
    method JumpSong(index: int)
      requires app.Valid()
      modifies app, skipped
      ensures app.Valid()
      ensures State() == JumpState(old(State()), index)
      ensures app.tracks == old(app.tracks)
      ensures app.current == if JumpTarget(|app.tracks|, index).Some? then JumpTarget(|app.tracks|, index).value else old(app.current)
      ensures skipped.indices == if JumpTarget(|app.tracks|, index).Some? then old(skipped.indices) else Dedup(old(skipped.indices) + [index])
    {
      var ok := app.Jump(index);
      if !ok {
        SaveIndexReferenceToFile(index);
      }
    }

    /** `yield_song` with the default `start_song=0`, run to the end. */
    method YieldSong() returns (s: Stream)
      requires app.Valid()
      modifies app, skipped
      ensures app.Valid()
      ensures s == PlayerStream(old(app.tracks))
      ensures State() == AfterEnumeration(old(State()))
    {
      ghost var st := State();
      JumpSong(-1);
      var last := app.CurrentIndex();
      if last.Err? {
        s := Stream([], Some(last.error));
        return;
      }
      JumpSong(1);
      s := ReadPositions(last.value, st);
      BuiltFromUnique(Packaged, MacOS, PlayerKwargs(st.tracks), s, PlayerStream(st.tracks));
    }

    /** The loop of `yield_song` over the positions 0..n. */
    method ReadPositions(n: nat, ghost st: PlayerState) returns (s: Stream)
      requires app.Valid() && n == |app.tracks| > 0 && app.current == 1
      requires app.tracks == st.tracks && skipped.indices == st.skipped
      modifies app, skipped
      ensures app.Valid() && app.tracks == st.tracks
      ensures BuiltFrom(Packaged, MacOS, PlayerKwargs(st.tracks), s)
      ensures app.current == if s.error.None? then n else ItemTrack(|s.items|)
      ensures skipped.indices == Dedup(st.skipped + [0])
    {
      ghost var kwss := PlayerKwargs(st.tracks);
      var items: seq<Song> := [];
      var i := 0;
      while i <= n
        invariant app.Valid() && app.tracks == st.tracks
        invariant 0 <= i <= n + 1 && |items| == i
        invariant BuiltPrefix(Packaged, MacOS, kwss, items)
        invariant app.current == if i == 0 then 1 else ItemTrack(i - 1)
        invariant skipped.indices == if i == 0 then st.skipped else Dedup(st.skipped + [0])
      {
        var kv := ReadPosition(i, st);
        PlayerKwargsAt(st.tracks, i, ItemTrack(i));
        var song := Construct(Packaged, MacOS, kv);
        if song.Err? {
          return Stream(items, Some(song.error));
        }
        BuiltPrefixSnoc(Packaged, MacOS, kwss, items, song.value);
        items := items + [song.value];
        i := i + 1;
      }
      return Stream(items, None);
    }

    /** One turn of that loop: jump to position `i`, read the current track
      and build a song from it. */
    method ReadPosition(i: nat, ghost st: PlayerState) returns (kv: Kwargs)
      requires app.Valid() && app.tracks == st.tracks && i <= |st.tracks|
      requires app.current == if i == 0 then 1 else ItemTrack(i - 1)
      requires skipped.indices == if i == 0 then st.skipped else Dedup(st.skipped + [0])
      modifies app, skipped
      ensures app.Valid() && app.tracks == st.tracks
      ensures app.current == ItemTrack(i)
      ensures skipped.indices == Dedup(st.skipped + [0])
      ensures kv == ReadableKwargs(st.tracks[ItemTrack(i) - 1])
    {
      JumpToItem(i, st);
      ghost var track := app.tracks[app.current - 1];
      assert track == st.tracks[ItemTrack(i) - 1];
      kv := app.ReadCurrentTrack();
      assert kv == ReadableKwargs(track);
    }

    /** The jump that starts each turn: position 0 is absent and recorded
      in the skip file, leaving the app on track 1. */
    method JumpToItem(i: nat, ghost st: PlayerState)
      requires app.Valid() && app.tracks == st.tracks && i <= |st.tracks|
      requires app.current == if i == 0 then 1 else ItemTrack(i - 1)
      requires skipped.indices == if i == 0 then st.skipped else Dedup(st.skipped + [0])
      modifies app, skipped
      ensures app.Valid() && app.tracks == st.tracks
      ensures app.current == ItemTrack(i)
      ensures skipped.indices == Dedup(st.skipped + [0])
    {
      JumpSong(i);
      if i == 0 {
        assert JumpTarget(|st.tracks|, 0).None?;
      } else {
        assert JumpTarget(|st.tracks|, i) == Some(i);
      }
    }

    /** `get_song_index_by_fields`: enumerate everything, then the 1-based
      position of the first match. */
    method GetSongIndexByFields(fieldValues: seq<(string, Value)>, today: CalDate) returns (r: Result<Option<nat>>)
      requires app.Valid()
      modifies app, skipped
      ensures app.Valid()
      ensures r == IndexByFields(PlayerStream(old(app.tracks)), fieldValues, today)
      ensures State() == AfterEnumeration(old(State()))
    {
      var all := YieldSong();
      r := SearchRun(all, fieldValues, today);
    }

    /** `set_song_field` on the current track. */
    method SetSongField(field: string, value: Value)
      requires app.Valid() && 1 <= app.current <= |app.tracks|
      modifies app
      ensures app.Valid() && app.current == old(app.current)
      ensures app.tracks == old(app.tracks)[app.current - 1 := Push(old(app.tracks)[app.current - 1], field, value)]
    {
      if value == Null {
        return;
      }
      var _ := app.SetCurrentField(field, value);
    }
  }

  // ---------------------------------------------------------------------
  // The writer

  /** `[_.strip() for _ in match_fields.split(',')]`. */
  function MatchFieldNames(arg: string): (names: seq<string>)
    ensures |names| == |Split(arg, ',')|
  {
    var parts := Split(arg, ',');
    seq(|parts|, i requires 0 <= i < |parts| => Strip(parts[i]))
  }

  /** Each match field is its comma-separated piece with the surrounding
      whitespace cut off, and nothing more. */
  lemma MatchFieldNamesMeaning(arg: string, i: nat)
    requires i < |Split(arg, ',')|
    ensures var piece := Split(arg, ','); var name := MatchFieldNames(arg)[i];
      exists a, b :: (0 <= a <= b <= |piece[i]| && name == piece[i][a..b]
        && (forall k :: 0 <= k < a ==> IsSpace(piece[i][k]))
        && (forall k :: b <= k < |piece[i]| ==> IsSpace(piece[i][k])))
    ensures |MatchFieldNames(arg)[i]| > 0 ==>
      !IsSpace(MatchFieldNames(arg)[i][0]) && !IsSpace(MatchFieldNames(arg)[i][|MatchFieldNames(arg)[i]| - 1])
  {
    var pieces := Split(arg, ',');
    var name := MatchFieldNames(arg)[i];
    assert name == Strip(pieces[i]);
    StrippedName(name, pieces[i]);
  }

  /** `{_: getattr(song, _) for _ in self.match_fields}`: any name the song
      does not answer to raises `AttributeError`. */
  function MatchValues(song: Song, names: seq<string>, today: CalDate): (r: Result<seq<(string, Value)>>)
    ensures r.Err? <==> exists i :: 0 <= i < |names| && GetAttr(song, names[i], today).Err?
    ensures r.Err? ==> exists i :: (0 <= i < |names| && GetAttr(song, names[i], today) == Err(r.error)
      && forall j :: 0 <= j < i ==> GetAttr(song, names[j], today).Ok?)
    ensures r.Ok? ==> (|r.value| == |names|
      && forall i :: 0 <= i < |names| ==> r.value[i] == (names[i], GetAttr(song, names[i], today).value))
  {
    if |names| == 0 then Ok([])
    else
      match GetAttr(song, names[0], today)
      case Err(e) => Err(e)
      case Ok(v) =>
        match MatchValues(song, names[1..], today)
        case Err(e) =>
          assert forall i :: 1 <= i < |names| ==> names[1..][i - 1] == names[i];
          Err(e)
        case Ok(rest) =>
          assert forall i :: 0 <= i < |names| - 1 ==> names[1..][i] == names[i + 1];
          Ok([(names[0], v)] + rest)
  }

  /** The push loop: every `asdict` field outside the exclusions, in order. */
  function PushFields(track: Track, d: Kwargs, exclude: seq<string>): Track
    decreases |d|
  {
    if |d| == 0 then track
    else
      var t := PushFields(track, d[..|d| - 1], exclude);
      var (f, v) := d[|d| - 1];
      if f in exclude then t else Push(t, f, v)
  }

  /** One more field of the dict: pushed unless excluded. */
  lemma PushFieldsSnoc(track: Track, d: Kwargs, k: nat, exclude: seq<string>)
    requires k < |d|
    ensures PushFields(track, d[..k + 1], exclude) ==
      if d[k].0 in exclude then PushFields(track, d[..k], exclude)
      else Push(PushFields(track, d[..k], exclude), d[k].0, d[k].1)
  {
    TakeSnoc(d, k);
  }

  /** The value the push loop leaves in a property: the field's value when
      the field is not excluded and not `None`. */
  function Pushed(d: Kwargs, exclude: seq<string>, k: string): Option<Value> {
    if k in exclude then None
    else match Lookup(d, k)
      case Some(v) => if v == Null then None else Some(v)
      case None => None
  }

  /** `after` is `before` with every property named by a pushed field set
      to that field's value. */
  predicate PushedTrack(before: Track, after: Track, d: Kwargs, exclude: seq<string>) {
    && |after| == |before|
    && forall j :: 0 <= j < |before| ==>
         after[j] == (if Pushed(d, exclude, before[j].0).Some?
                      then (before[j].0, Readable(Pushed(d, exclude, before[j].0).value))
                      else before[j])
  }

  /** The properties of the pushed track are those of the track; a property
      named by a pushed field takes its value, every other one is kept. */
  lemma {:induction false} PushFieldsMeaning(track: Track, d: Kwargs, exclude: seq<string>)
    requires Distinct(Keys(track)) && Distinct(Keys(d))
    ensures Keys(PushFields(track, d, exclude)) == Keys(track)
    ensures PushedTrack(track, PushFields(track, d, exclude), d, exclude)
    decreases |d|
  {
    if |d| > 0 {
      var init := d[..|d| - 1];
      var (f, v) := d[|d| - 1];
      assert Distinct(Keys(init)) by {
        assert forall i :: 0 <= i < |init| ==> Keys(init)[i] == Keys(d)[i];
      }
      assert f !in Keys(init) by {
        assert forall i :: 0 <= i < |init| ==> Keys(init)[i] == Keys(d)[i];
      }
      PushFieldsMeaning(track, init, exclude);
      LookupAbsent(init, f);
      var t := PushFields(track, init, exclude);
      var r := PushFields(track, d, exclude);
      assert r == if f in exclude then t else Push(t, f, v);
      forall k ensures Pushed(d, exclude, k) == (if k == f then (if f in exclude || v == Null then None else Some(v)) else Pushed(init, exclude, k)) {
        if k != f {
          assert Lookup(d, k) == Lookup(init, k);
        }
      }
      forall j | 0 <= j < |track|
        ensures r[j] == (if Pushed(d, exclude, track[j].0).Some? then (track[j].0, Readable(Pushed(d, exclude, track[j].0).value)) else track[j])
      {
        assert Keys(t)[j] == t[j].0 == track[j].0 == Keys(track)[j];
      }
    }
  }

  /** The position the push lands on: the matched position, or the last
      track when that position does not exist (the jump fails). */
  function PushTarget(n: nat, p: nat): nat {
    if 1 <= p <= n then p else n
  }

  /** `MacOSMusicWriteAdapter.write` on the app and the skip file: the new
      state, and the exception it raises, if any. */
  function WriteSpec(st: PlayerState, song: Song, matchFields: seq<string>, exclude: string, today: CalDate): (PlayerState, Option<Error>)
  {
    match MatchValues(song, matchFields, today)
    case Err(e) => (st, Some(e))
    case Ok(fieldValues) =>
      var index := IndexByFields(PlayerStream(st.tracks), fieldValues, today);
      FoundTargetExists(st, fieldValues, today);
      WriteFound(AfterEnumeration(st), index, AsDict(song, today), StrError(song, today), exclude)
  }

  /** The rest of `write`, once the enumeration has left the app in state
      `st1` and the search has given `index`: a match is jumped to and
      receives `fields`, the song's `asdict`; `shown` is what formatting
      the song raises, if anything. */
  function WriteFound(st1: PlayerState, index: Result<Option<nat>>, fields: Result<Kwargs>, shown: Option<Error>,
                      exclude: string): (PlayerState, Option<Error>)
    requires index.Ok? && index.value.Some? ==> 1 <= st1.current <= |st1.tracks|
  {
    match index
    case Err(e) => (st1, Some(e))
    case Ok(None) => (st1, shown)
    case Ok(Some(p)) =>
      var st2 := JumpState(st1, p);
      match fields
      case Err(e) => (st2, Some(e))
      case Ok(d) =>
        (st2.(tracks := PushAt(st2.tracks, st2.current, d, Split(exclude, ','))), shown)
  }

  /** The library with `d` pushed to track `c`, counted from one. */
  function PushAt(tracks: seq<Track>, c: nat, d: Kwargs, exclude: seq<string>): seq<Track>
    requires 1 <= c <= |tracks|
  {
    tracks[c - 1 := PushFields(tracks[c - 1], d, exclude)]
  }

  /** A match means the library was not empty, so the enumeration leaves
      a current track, and so does the writer's jump. */
  lemma FoundTargetExists(st: PlayerState, fieldValues: seq<(string, Value)>, today: CalDate)
    ensures var index := IndexByFields(PlayerStream(st.tracks), fieldValues, today);
      index.Ok? && index.value.Some? ==>
        && |AfterEnumeration(st).tracks| == |st.tracks| > 0
        && 1 <= AfterEnumeration(st).current <= |st.tracks|
        && 1 <= JumpState(AfterEnumeration(st), index.value.value).current <= |st.tracks|
        && JumpState(AfterEnumeration(st), index.value.value).current == PushTarget(|st.tracks|, index.value.value)
  {
  }

  /** The names `asdict` uses are those of distinct fields. */
  lemma AsDictKeysDistinct(song: Song, today: CalDate)
    requires AsDict(song, today).Ok?
    ensures Distinct(Keys(AsDict(song, today).value))
  {
    var d := AsDict(song, today).value;
    forall i, j | 0 <= i < j < |d| ensures Keys(d)[i] != Keys(d)[j] {
      InstanceKeyInjective(FIELDS[i], FIELDS[j]);
    }
  }

  lemma InstanceKeyInjective(f: Field, g: Field)
    requires f != g
    ensures InstanceKey(f) != InstanceKey(g)
  {
    if f != DateAdded && g != DateAdded {
      var r := FieldOf(FieldName(f));
      assert r.Some? && FieldName(r.value) == FieldName(f);
      assert FieldOf(FieldName(g)) == Some(g);
    } else if f == DateAdded {
      assert InstanceKey(f)[0] == '_';
    } else {
      assert InstanceKey(g)[0] == '_';
    }
  }

  /** The song's match fields read as `fieldValues`, the search found it
      at position `p`, and its `asdict` is `d`. */
  predicate WriteMatches(st: PlayerState, song: Song, matchFields: seq<string>, today: CalDate,
                         fieldValues: seq<(string, Value)>, p: nat, d: Kwargs) {
    && MatchValues(song, matchFields, today) == Ok(fieldValues)
    && IndexByFields(PlayerStream(st.tracks), fieldValues, today) == Ok(Some(p))
    && AsDict(song, today) == Ok(d)
  }

  /** The library after a match: the track the jump selected, and only it,
      has had the fields pushed; the fields name distinct properties. */
  lemma WriteSpecOnMatch(st: PlayerState, song: Song, matchFields: seq<string>, exclude: string, today: CalDate,
                         fieldValues: seq<(string, Value)>, p: nat, d: Kwargs)
    requires WriteMatches(st, song, matchFields, today, fieldValues, p, d)
    ensures 1 <= PushTarget(|st.tracks|, p) <= |st.tracks|
    ensures Distinct(Keys(d))
    ensures WriteSpec(st, song, matchFields, exclude, today).0.tracks ==
      PushAt(st.tracks, PushTarget(|st.tracks|, p), d, Split(exclude, ','))
  {
    FoundTargetExists(st, fieldValues, today);
    AsDictKeysDistinct(song, today);
    var st2 := JumpState(AfterEnumeration(st), p);
    assert WriteSpec(st, song, matchFields, exclude, today) == WriteFound(AfterEnumeration(st), Ok(Some(p)), AsDict(song, today), StrError(song, today), exclude);
    assert st2.tracks == st.tracks && st2.current == PushTarget(|st.tracks|, p);
  }

  /** Without a match, or when `asdict` raises, no track changes. */
  lemma WriteSpecNoPush(st: PlayerState, song: Song, matchFields: seq<string>, exclude: string, today: CalDate)
    requires !(&& MatchValues(song, matchFields, today).Ok?
               && IndexByFields(PlayerStream(st.tracks), MatchValues(song, matchFields, today).value, today).Ok?
               && IndexByFields(PlayerStream(st.tracks), MatchValues(song, matchFields, today).value, today).value.Some?
               && AsDict(song, today).Ok?)
    ensures WriteSpec(st, song, matchFields, exclude, today).0.tracks == st.tracks
  {
  }

  /** Whatever happens, `write` keeps the library's tracks and the
      properties each track has; a track's values change only when a song
      matched and `asdict` succeeded. */
  lemma WriteKeepsLibrary(st: PlayerState, song: Song, matchFields: seq<string>, exclude: string, today: CalDate)
    requires forall i :: 0 <= i < |st.tracks| ==> Distinct(Keys(st.tracks[i]))
    ensures |WriteSpec(st, song, matchFields, exclude, today).0.tracks| == |st.tracks|
    ensures forall i :: 0 <= i < |st.tracks| ==>
      Keys(WriteSpec(st, song, matchFields, exclude, today).0.tracks[i]) == Keys(st.tracks[i])
    ensures WriteSpec(st, song, matchFields, exclude, today).0.tracks != st.tracks ==>
      && MatchValues(song, matchFields, today).Ok?
      && IndexByFields(PlayerStream(st.tracks), MatchValues(song, matchFields, today).value, today).Ok?
      && IndexByFields(PlayerStream(st.tracks), MatchValues(song, matchFields, today).value, today).value.Some?
      && AsDict(song, today).Ok?
  {
    var mv := MatchValues(song, matchFields, today);
    if && mv.Ok?
       && IndexByFields(PlayerStream(st.tracks), mv.value, today).Ok?
       && IndexByFields(PlayerStream(st.tracks), mv.value, today).value.Some?
       && AsDict(song, today).Ok? {
      var p := IndexByFields(PlayerStream(st.tracks), mv.value, today).value.value;
      var d := AsDict(song, today).value;
      WriteSpecOnMatch(st, song, matchFields, exclude, today, mv.value, p, d);
      PushOneTrack(st.tracks, PushTarget(|st.tracks|, p), d, Split(exclude, ','));
    } else {
      WriteSpecNoPush(st, song, matchFields, exclude, today);
    }
  }

  /** `w` is `tracks` with track `c` pushed: it has the same number of
      tracks, every other track is unchanged, and track `c` takes the value
      of every field of `d` that names one of its properties, is not
      excluded and is not `None`. */
  predicate LibraryPushed(tracks: seq<Track>, w: seq<Track>, c: nat, d: Kwargs, exclude: seq<string>) {
    && 1 <= c <= |tracks|
    && |w| == |tracks|
    && (forall i :: 0 <= i < |tracks| && i != c - 1 ==> w[i] == tracks[i])
    && PushedTrack(tracks[c - 1], w[c - 1], d, exclude)
  }

  /** On a match, the track the jump selected takes the value of every
      `asdict` field that names one of its properties, is not excluded
      and is not `None`; every other property and every other track is
      left as it was. */
  lemma WritePushes(st: PlayerState, song: Song, matchFields: seq<string>, exclude: string, today: CalDate,
                    fieldValues: seq<(string, Value)>, p: nat, d: Kwargs)
    requires forall i :: 0 <= i < |st.tracks| ==> Distinct(Keys(st.tracks[i]))
    requires WriteMatches(st, song, matchFields, today, fieldValues, p, d)
    ensures LibraryPushed(st.tracks, WriteSpec(st, song, matchFields, exclude, today).0.tracks,
                          PushTarget(|st.tracks|, p), d, Split(exclude, ','))
  {
    WriteSpecOnMatch(st, song, matchFields, exclude, today, fieldValues, p, d);
    PushOneTrack(st.tracks, PushTarget(|st.tracks|, p), d, Split(exclude, ','));
  }

  /** Pushing to track `c` of a library whose tracks name each property
      once: the same tracks, with the same properties, and only track `c`
      takes new values. */
  lemma PushOneTrack(tracks: seq<Track>, c: nat, d: Kwargs, exclude: seq<string>)
    requires 1 <= c <= |tracks| && Distinct(Keys(tracks[c - 1])) && Distinct(Keys(d))
    ensures forall i :: 0 <= i < |tracks| ==> Keys(PushAt(tracks, c, d, exclude)[i]) == Keys(tracks[i])
    ensures LibraryPushed(tracks, PushAt(tracks, c, d, exclude), c, d, exclude)
  {
    PushFieldsMeaning(tracks[c - 1], d, exclude);
  }

  /** The position `get_song_index_by_fields` reports counts the doubled
      first track, so for a song matched at a position p with 2 <= p <= n
      the match was built from track p - 1, while the jump that follows
      selects track p: the fields are pushed to the next track. */
  lemma WriteTargetsNextTrack(st: PlayerState, fieldValues: seq<(string, Value)>, p: nat, today: CalDate)
    requires IndexByFields(PlayerStream(st.tracks), fieldValues, today) == Ok(Some(p))
    requires 2 <= p <= |st.tracks|
    ensures MatchSong(PlayerStream(st.tracks).items[p - 1], fieldValues, today)
    ensures Build(Packaged, MacOS, ReadableKwargs(st.tracks[p - 2])) == Ok(PlayerStream(st.tracks).items[p - 1])
    ensures PushTarget(|st.tracks|, p) == p
  {
    FoundMatch(PlayerStream(st.tracks), fieldValues, today, p);
    SongFromPreviousTrack(st.tracks, PlayerStream(st.tracks), p);
  }

  /** The song was built from the dict read off track `t` (1-based). */
  predicate ReadFromTrack(tracks: seq<Track>, t: nat, song: Song) {
    1 <= t <= |tracks| && Build(Packaged, MacOS, ReadableKwargs(tracks[t - 1])) == Ok(song)
  }

  /** At the two ends of the enumeration the push lands on the matched
      track: position 1 is the first reading of track 1, and position n + 1
      is track n, where the failed jump leaves the app. */
  lemma WriteTargetsMatchedTrackAtEnds(st: PlayerState, fieldValues: seq<(string, Value)>, p: nat, today: CalDate)
    requires IndexByFields(PlayerStream(st.tracks), fieldValues, today) == Ok(Some(p))
    requires p == 1 || p == |st.tracks| + 1
    ensures MatchSong(PlayerStream(st.tracks).items[p - 1], fieldValues, today)
    ensures ReadFromTrack(st.tracks, PushTarget(|st.tracks|, p), PlayerStream(st.tracks).items[p - 1])
  {
    FoundMatch(PlayerStream(st.tracks), fieldValues, today, p);
    SongAtEnds(st.tracks, PlayerStream(st.tracks), p);
  }

  /** The songs at positions 1 and n + 1 of an enumeration that ends
      normally were read from the track the writer then selects. */
  lemma SongAtEnds(tracks: seq<Track>, s: Stream, p: nat)
    requires 0 < |tracks| && (p == 1 || p == |tracks| + 1)
    requires BuiltFrom(Packaged, MacOS, PlayerKwargs(tracks), s) && s.error.None?
    ensures p <= |s.items|
    ensures ReadFromTrack(tracks, PushTarget(|tracks|, p), s.items[p - 1])
  {
    if p == 1 {
      SongAtFirst(tracks, s);
    } else {
      SongAtLast(tracks, s);
    }
  }

  /** The first song of an enumeration that ends normally was read from
      track 1. */
  lemma SongAtFirst(tracks: seq<Track>, s: Stream)
    requires 0 < |tracks|
    requires BuiltFrom(Packaged, MacOS, PlayerKwargs(tracks), s) && s.error.None?
    ensures 0 < |s.items|
    ensures Build(Packaged, MacOS, ReadableKwargs(tracks[0])) == Ok(s.items[0])
  {
    var kwss := PlayerKwargs(tracks);
    PlayerKwargsAt(tracks, 0, 1);
    assert Build(Packaged, MacOS, kwss[0]) == Ok(s.items[0]);
  }

  /** The last song of an enumeration that ends normally was read from
      track n. */
  lemma SongAtLast(tracks: seq<Track>, s: Stream)
    requires 0 < |tracks|
    requires BuiltFrom(Packaged, MacOS, PlayerKwargs(tracks), s) && s.error.None?
    ensures |tracks| < |s.items|
    ensures Build(Packaged, MacOS, ReadableKwargs(tracks[|tracks| - 1])) == Ok(s.items[|tracks|])
  {
    var kwss := PlayerKwargs(tracks);
    PlayerKwargsAt(tracks, |tracks|, |tracks|);
    assert Build(Packaged, MacOS, kwss[|tracks|]) == Ok(s.items[|tracks|]);
  }

  /** The writer: a reader over the same app, the stripped match fields and
      the raw exclusion string. */
  class MacOSMusicWriteAdapter {
    const reader: MacOSMusicReadAdapter
    const matchFields: seq<string>
    const excludeFields: string

    constructor(reader: MacOSMusicReadAdapter, matchFields: string, excludeFields: string)
      ensures this.reader == reader
      ensures this.matchFields == MatchFieldNames(matchFields)
      ensures this.excludeFields == excludeFields
    {
      this.reader := reader;
      this.matchFields := MatchFieldNames(matchFields);
      this.excludeFields := excludeFields;
    }

    /** `write(song)`: find the song, jump to it, push its fields. */
    method Write(song: Song, today: CalDate) returns (r: Option<Error>)
      requires reader.app.Valid()
      modifies reader.app, reader.skipped
      ensures reader.app.Valid()
      ensures reader.State() == WriteSpec(old(reader.State()), song, matchFields, excludeFields, today).0
      ensures r == WriteSpec(old(reader.State()), song, matchFields, excludeFields, today).1
    {
      ghost var st := reader.State();
      var fieldValues := MatchValues(song, matchFields, today);
      if fieldValues.Err? {
        return Some(fieldValues.error);
      }
      var index := reader.GetSongIndexByFields(fieldValues.value, today);
      FoundTargetExists(st, fieldValues.value, today);
      r := WriteIndex(song, index, today);
    }

    /** `write` after the search: jump to the match and push the song's
      fields to it. */
    method WriteIndex(song: Song, index: Result<Option<nat>>, today: CalDate) returns (r: Option<Error>)
      requires reader.app.Valid()
      requires index.Ok? && index.value.Some? ==> 1 <= reader.app.current <= |reader.app.tracks|
      modifies reader.app, reader.skipped
      ensures reader.app.Valid()
      ensures reader.State() == WriteFound(old(reader.State()), index, AsDict(song, today), StrError(song, today), excludeFields).0
      ensures r == WriteFound(old(reader.State()), index, AsDict(song, today), StrError(song, today), excludeFields).1
    {
      if index.Err? {
        return Some(index.error);
      }
      if index.value.None? {
        return StrError(song, today);
      }
      var p := index.value.value;
      reader.JumpSong(p);
      var fields := AsDict(song, today);
      if fields.Err? {
        return Some(fields.error);
      }
      var exclude := Split(excludeFields, ',');
      PushAll(fields.value, exclude);
      return StrError(song, today);
    }

    /** The push loop of `write`: each `asdict` field outside the
      exclusions goes to the current track. */
    method PushAll(d: Kwargs, exclude: seq<string>)
      requires reader.app.Valid() && 1 <= reader.app.current <= |reader.app.tracks|
      modifies reader.app
      ensures reader.app.Valid() && reader.app.current == old(reader.app.current)
      ensures reader.app.tracks ==
        old(reader.app.tracks)[reader.app.current - 1 := PushFields(old(reader.app.tracks)[reader.app.current - 1], d, exclude)]
    {
      ghost var c := reader.app.current;
      ghost var before := reader.app.tracks;
      var k := 0;
      while k < |d|
        invariant 0 <= k <= |d|
        invariant reader.app.Valid() && reader.app.current == c
        invariant reader.app.tracks == before[c - 1 := PushFields(before[c - 1], d[..k], exclude)]
      {
        PushFieldsSnoc(before[c - 1], d, k, exclude);
        ghost var pre := PushFields(before[c - 1], d[..k], exclude);
        if d[k].0 !in exclude {
          reader.SetSongField(d[k].0, d[k].1);
          UpdateTwice(before, c - 1, pre, Push(pre, d[k].0, d[k].1));
        }
        k := k + 1;
      }
      TakeAll(d);
    }
  }
}
