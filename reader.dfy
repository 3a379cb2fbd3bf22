/** What every read adapter shares (`BaseReadAdapter` in
    `musicmanager/adapter.py`): the songs a generator yields, `__contains__`
    and the field matching the Music writer uses to find a song. */
module Reader {
  import opened Py
  import opened Song
  import opened SongOps

  /** The run of a generator: the songs it yields, in order, and the
      exception that ends it early, if any. */
  datatype Stream = Stream(items: seq<Song>, error: Option<Error>)

  /** `s` is what a generator yields when it constructs one song per
      keyword list in order, and the first failing construction ends it. */
  predicate BuiltFrom(gen: Generation, src: Source, kwss: seq<Kwargs>, s: Stream) {
    && |s.items| <= |kwss|
    && (forall i :: 0 <= i < |s.items| ==> Build(gen, src, kwss[i]) == Ok(s.items[i]))
    && (s.error.None? ==> |s.items| == |kwss|)
    && (s.error.Some? ==> |s.items| < |kwss| && Build(gen, src, kwss[|s.items|]) == Err(s.error.value))
  }

  /** The first `|items|` keyword lists built the songs in `items`. */
  predicate BuiltPrefix(gen: Generation, src: Source, kwss: seq<Kwargs>, items: seq<Song>) {
    |items| <= |kwss| && forall i :: 0 <= i < |items| ==> Build(gen, src, kwss[i]) == Ok(items[i])
  }

  lemma BuiltPrefixSnoc(gen: Generation, src: Source, kwss: seq<Kwargs>, items: seq<Song>, song: Song)
    requires BuiltPrefix(gen, src, kwss, items) && |items| < |kwss|
    requires Build(gen, src, kwss[|items|]) == Ok(song)
    ensures BuiltPrefix(gen, src, kwss, items + [song])
  {
    var longer := items + [song];
    assert longer[|items|] == song;
    assert forall i :: 0 <= i < |items| ==> longer[i] == items[i];
  }

  /** One song per keyword list, stopping at the first exception. */
  function ConstructEach(gen: Generation, src: Source, kwss: seq<Kwargs>): (s: Stream)
    ensures BuiltFrom(gen, src, kwss, s)
  {
    if |kwss| == 0 then Stream([], None)
    else
      match Build(gen, src, kwss[0])
      case Err(e) => Stream([], Some(e))
      case Ok(song) =>
        var rest := ConstructEach(gen, src, kwss[1..]);
        Stream([song] + rest.items, rest.error)
  }

  /** Only one run fits the description. */
  lemma BuiltFromUnique(gen: Generation, src: Source, kwss: seq<Kwargs>, s: Stream, t: Stream)
    requires BuiltFrom(gen, src, kwss, s) && BuiltFrom(gen, src, kwss, t)
    ensures s == t
  {
    if |s.items| == |t.items| {
      assert s.items == t.items;
    }
  }

  /** The generator loop: construct the songs one by one. */
  method YieldEach(gen: Generation, src: Source, kwss: seq<Kwargs>) returns (s: Stream)
    ensures s == ConstructEach(gen, src, kwss)
  {
    var items: seq<Song> := [];
    var i := 0;
    while i < |kwss|
      invariant 0 <= i <= |kwss| && |items| == i
      invariant BuiltPrefix(gen, src, kwss, items)
    {
      var song := Construct(gen, src, kwss[i]);
      if song.Err? {
        s := Stream(items, Some(song.error));
        BuiltFromUnique(gen, src, kwss, s, ConstructEach(gen, src, kwss));
        return;
      }
      BuiltPrefixSnoc(gen, src, kwss, items, song.value);
      items := items + [song.value];
      i := i + 1;
    }
    s := Stream(items, None);
    BuiltFromUnique(gen, src, kwss, s, ConstructEach(gen, src, kwss));
  }

  /** A run followed by a later exception: the generator's own failure
      comes first. */
  function ThenRaise(s: Stream, after: Option<Error>): Stream {
    if s.error.Some? then s else Stream(s.items, after)
  }

  // ---------------------------------------------------------------------
  // __contains__

  /** `target in reader`: scan until a song `@` the target; an exception
      from the generator or from `@` ends the scan. */
  function ContainsSpec(items: seq<Song>, error: Option<Error>, target: Song, today: CalDate): Result<bool> {
    if |items| == 0 then (if error.Some? then Err(error.value) else Ok(false))
    else
      match MatMul(items[0], target, today)
      case Err(e) => Err(e)
      case Ok(true) => Ok(true)
      case Ok(false) => ContainsSpec(items[1..], error, target, today)
  }

  /** `BaseReadAdapter.__contains__`: the loop over the reader. */
  method Contains(s: Stream, target: Song, today: CalDate) returns (r: Result<bool>)
    ensures r == ContainsSpec(s.items, s.error, target, today)
  {
    var i := 0;
    while i < |s.items|
      invariant 0 <= i <= |s.items|
      invariant ContainsSpec(s.items, s.error, target, today) == ContainsSpec(s.items[i..], s.error, target, today)
    {
      assert s.items[i..][1..] == s.items[i + 1..];
      var m := MatMul(s.items[i], target, today);
      if m.Err? {
        return Err(m.error);
      }
      if m.value {
        return Ok(true);
      }
      i := i + 1;
    }
    if s.error.Some? {
      return Err(s.error.value);
    }
    return Ok(false);
  }

  /** Containment is true exactly when some yielded song `@` the target
      and every earlier one compared without error and did not. */
  lemma {:induction false} ContainsMeaning(items: seq<Song>, error: Option<Error>, target: Song, today: CalDate)
    requires Name in target.attrs && forall i :: 0 <= i < |items| ==> Name in items[i].attrs
    ensures ContainsSpec(items, error, target, today) == Ok(true) <==>
      exists i :: 0 <= i < |items| && MatMul(items[i], target, today) == Ok(true)
    ensures ContainsSpec(items, error, target, today) == Ok(false) <==>
      error.None? && forall i :: 0 <= i < |items| ==> MatMul(items[i], target, today) == Ok(false)
  {
    if |items| > 0 {
      ContainsMeaning(items[1..], error, target, today);
      assert forall i :: 1 <= i < |items| ==> items[1..][i - 1] == items[i];
      if MatMul(items[0], target, today) == Ok(false) {
        assert forall i :: 0 <= i < |items[1..]| ==> items[i + 1] == items[1..][i];
      }
    }
  }

  // ---------------------------------------------------------------------
  // Matching by fields

  /** `getattr(song, k, None)`: the attribute, or `None` when the song has
      no such attribute. */
  function AttrOrNone(song: Song, k: string, today: CalDate): Value {
    match GetAttr(song, k, today)
    case Ok(v) => v
    case Err(_) => Null
  }

  /** `_match_song`: every requested field has the requested value. */
  predicate MatchSong(song: Song, fieldValues: seq<(string, Value)>, today: CalDate) {
    forall i :: 0 <= i < |fieldValues| ==> AttrOrNone(song, fieldValues[i].0, today) == fieldValues[i].1
  }

  /** An empty request matches every song. */
  lemma MatchEmpty(song: Song, today: CalDate)
    ensures MatchSong(song, [], today)
  {
  }

  /** The first matching song, counted from zero. */
  function FirstMatch(songs: seq<Song>, fieldValues: seq<(string, Value)>, today: CalDate): (r: Option<nat>)
    ensures r.Some? ==> (r.value < |songs| && MatchSong(songs[r.value], fieldValues, today)
      && forall j :: 0 <= j < r.value ==> !MatchSong(songs[j], fieldValues, today))
    ensures r.None? ==> forall j :: 0 <= j < |songs| ==> !MatchSong(songs[j], fieldValues, today)
  {
    if |songs| == 0 then None
    else if MatchSong(songs[0], fieldValues, today) then Some(0)
    else
      match FirstMatch(songs[1..], fieldValues, today)
      case None => None
      case Some(j) => Some(j + 1)
  }

  /** The search loop of `get_song_index_by_fields`: positions are counted
      from `start`. */
  method FindFirst(songs: seq<Song>, fieldValues: seq<(string, Value)>, start: nat, today: CalDate) returns (r: Option<nat>)
    ensures r.Some? <==> FirstMatch(songs, fieldValues, today).Some?
    ensures r.Some? ==> r.value == FirstMatch(songs, fieldValues, today).value + start
  {
    var i := 0;
    while i < |songs|
      invariant 0 <= i <= |songs|
      invariant forall j :: 0 <= j < i ==> !MatchSong(songs[j], fieldValues, today)
    {
      if MatchSong(songs[i], fieldValues, today) {
        return Some(i + start);
      }
      i := i + 1;
    }
    return None;
  }

  /** The packaged `get_song_index_by_fields` over a finished enumeration:
      an exception from the enumeration comes first, then the 1-based
      position of the first match; the debug line for the match formats
      the song, which may raise. */
  function IndexByFields(s: Stream, fieldValues: seq<(string, Value)>, today: CalDate): (r: Result<Option<nat>>)
    ensures s.error.Some? ==> r == Err(s.error.value)
    ensures r.Ok? && r.value.Some? ==>
      1 <= r.value.value <= |s.items| && MatchSong(s.items[r.value.value - 1], fieldValues, today)
      && forall j :: 0 <= j < r.value.value - 1 ==> !MatchSong(s.items[j], fieldValues, today)
    ensures r == Ok(None) <==>
      s.error.None? && forall j :: 0 <= j < |s.items| ==> !MatchSong(s.items[j], fieldValues, today)
    ensures s.error.None? && FirstMatch(s.items, fieldValues, today).Some? ==>
      var j := FirstMatch(s.items, fieldValues, today).value;
      r == if StrError(s.items[j], today).Some? then Err(StrError(s.items[j], today).value) else Ok(Some(j + 1))
  {
    if s.error.Some? then Err(s.error.value)
    else
      var m := FirstMatch(s.items, fieldValues, today);
      if m.None? then Ok(None)
      else
        var e := StrError(s.items[m.value], today);
        if e.Some? then Err(e.value) else Ok(Some(m.value + 1))
  }

  /** The packaged search over a finished enumeration: its exception,
      or the 1-based position of the first match once the song formats. */
  method SearchRun(s: Stream, fieldValues: seq<(string, Value)>, today: CalDate) returns (r: Result<Option<nat>>)
    ensures r == IndexByFields(s, fieldValues, today)
  {
    if s.error.Some? {
      return Err(s.error.value);
    }
    var found := FindFirst(s.items, fieldValues, 1, today);
    if found.None? {
      return Ok(None);
    }
    var e := StrError(s.items[found.value - 1], today);
    if e.Some? {
      return Err(e.value);
    }
    return Ok(found);
  }

  /** A match in a run that ended normally is reported, once the songs
      format: the position is at most that of any matching song. */
  lemma MatchReported(s: Stream, fieldValues: seq<(string, Value)>, today: CalDate, k: nat)
    requires s.error.None? && k < |s.items| && MatchSong(s.items[k], fieldValues, today)
    requires forall j :: 0 <= j < |s.items| ==> StrError(s.items[j], today).None?
    ensures IndexByFields(s, fieldValues, today).Ok? && IndexByFields(s, fieldValues, today).value.Some?
    ensures 1 <= IndexByFields(s, fieldValues, today).value.value <= k + 1
  {
    var j := FirstMatch(s.items, fieldValues, today).value;
    assert StrError(s.items[j], today).None?;
  }

  /** A reported match comes from a run that ended normally. */
  lemma FoundMatch(s: Stream, fieldValues: seq<(string, Value)>, today: CalDate, p: nat)
    requires IndexByFields(s, fieldValues, today) == Ok(Some(p))
    ensures s.error.None? && 1 <= p <= |s.items| && MatchSong(s.items[p - 1], fieldValues, today)
  {
  }
}
