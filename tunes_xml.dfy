/** `TunesReadAdapter.yield_song` (`musicmanager/adapter.py`, and its
    legacy copy in `musicmanager/__main__.py`): the scan of an iTunes
    library export. The parsed XML is given as an element tree; every
    child of the tracks `dict` is one track, whose children alternate key
    and value elements. */
module TunesXml {
  import opened Py
  import opened Song
  import opened Reader

  /** An XML element: its tag, its text (`None` when it has none) and its
      children in document order. */
  datatype Elem = Elem(tag: string, text: Option<string>, children: seq<Elem>)

  /** `tree[0].findall("dict")[0]`: the first `dict` child of the root's
      first child; `IndexError` when either is missing. */
  function TracksDict(root: Elem): (r: Result<Elem>)
    ensures r.Ok? ==> |root.children| > 0 && r.value in root.children[0].children && r.value.tag == "dict"
    ensures r.Ok? ==> (exists i :: 0 <= i < |root.children[0].children| && root.children[0].children[i] == r.value
                        && forall j :: 0 <= j < i ==> root.children[0].children[j].tag != "dict")
    ensures r.Err? ==> r.error == IndexError
    ensures r.Err? ==> |root.children| == 0 || forall c :: c in root.children[0].children ==> c.tag != "dict"
  {
    if |root.children| == 0 then Err(IndexError)
    else FirstTagged(root.children[0].children, "dict")
  }

  function FirstTagged(cs: seq<Elem>, tag: string): (r: Result<Elem>)
    ensures r.Ok? ==> r.value in cs && r.value.tag == tag
    ensures r.Ok? ==> exists i :: 0 <= i < |cs| && cs[i] == r.value && forall j :: 0 <= j < i ==> cs[j].tag != tag
    ensures r.Err? ==> r.error == IndexError && forall c :: c in cs ==> c.tag != tag
  {
    if |cs| == 0 then Err(IndexError)
    else if cs[0].tag == tag then Ok(cs[0])
    else FirstTagged(cs[1..], tag)
  }

  /** `s[:limit + 1]` when `limit` is truthy, the whole list otherwise. */
  function Window(cs: seq<Elem>, limit: int): seq<Elem> {
    if limit != 0 then SliceTo(cs, limit + 1) else cs
  }

  /** With a positive limit only the first `limit + 1` children are looked
      at (all of them when there are fewer); with no limit, all are. */
  lemma WindowMeaning(cs: seq<Elem>, limit: int)
    ensures limit == 0 ==> Window(cs, limit) == cs
    ensures limit > 0 ==> Window(cs, limit) == cs[..if limit + 1 <= |cs| then limit + 1 else |cs|]
    ensures limit > 0 && |cs| > limit ==> |Window(cs, limit)| == limit + 1
  {
  }

  // ---------------------------------------------------------------------
  // One track

  /** `zip(item[::2], item[1::2])`: key and value elements paired, a lone
      last key dropped. */
  function Pairs(item: Elem): (ps: seq<(Option<string>, Option<string>)>)
    ensures |ps| == |item.children| / 2
    ensures forall i :: 0 <= i < |ps| ==> ps[i] == (item.children[2 * i].text, item.children[2 * i + 1].text)
  {
    seq(|item.children| / 2, i requires 0 <= i < |item.children| / 2 =>
      (item.children[2 * i].text, item.children[2 * i + 1].text))
  }

  /** The text of a value element as a song receives it. */
  function TextValue(t: Option<string>): Value {
    match t
    case Some(s) => Str(s)
    case None => Null
  }

  /** `TunesSong(**{k.text: v.text ...})`: a key element without text makes
      a `None` keyword, and the call raises `TypeError`; otherwise the
      keywords are the pairs, a later duplicate key overriding an earlier
      one. */
  function RunKwargs(item: Elem): (r: Result<Kwargs>)
    ensures r.Err? <==> exists i :: 0 <= i < |Pairs(item)| && Pairs(item)[i].0.None?
    ensures r.Err? ==> r.error == TypeError
  {
    var ps := Pairs(item);
    if exists i :: 0 <= i < |ps| && ps[i].0.None? then Err(TypeError)
    else Ok(DictFrom(seq(|ps|, i requires 0 <= i < |ps| => (ps[i].0.value, TextValue(ps[i].1)))))
  }

  /** Each keyword is named once; it is the text of some key element, and
      its value is the text of the value element beside the last key
      element with that text. Every key element's text is a keyword. */
  lemma RunKwargsMeaning(item: Elem)
    requires RunKwargs(item).Ok?
    ensures var kw := RunKwargs(item).value;
      && Distinct(Keys(kw))
      && (forall j :: 0 <= j < |item.children| / 2 ==> item.children[2 * j].text.value in Keys(kw))
      && (forall i :: 0 <= i < |kw| ==>
            exists j :: 0 <= j < |item.children| / 2
              && item.children[2 * j].text == Some(kw[i].0)
              && kw[i].1 == TextValue(item.children[2 * j + 1].text)
              && forall l :: j < l < |item.children| / 2 ==> item.children[2 * l].text != Some(kw[i].0))
  {
    var kw := RunKwargs(item).value;
    RunKwargsKeys(item);
    forall i | 0 <= i < |kw|
      ensures exists j :: (0 <= j < |item.children| / 2
              && item.children[2 * j].text == Some(kw[i].0)
              && kw[i].1 == TextValue(item.children[2 * j + 1].text)
              && forall l :: j < l < |item.children| / 2 ==> item.children[2 * l].text != Some(kw[i].0))
    {
      var j := RunKwargsEntry(item, i);
    }
  }

  /** The keyword names of a run: each once, one per key element text. */
  lemma RunKwargsKeys(item: Elem)
    requires RunKwargs(item).Ok?
    ensures Distinct(Keys(RunKwargs(item).value))
    ensures forall j :: 0 <= j < |item.children| / 2 ==> item.children[2 * j].text.value in Keys(RunKwargs(item).value)
  {
    var ps := Pairs(item);
    var qs := seq(|ps|, i requires 0 <= i < |ps| => (ps[i].0.value, TextValue(ps[i].1)));
    DictFromMeaning(qs);
    forall j | 0 <= j < |ps| ensures item.children[2 * j].text.value in Keys(RunKwargs(item).value) {
      assert Keys(qs)[j] == item.children[2 * j].text.value;
    }
  }

  /** The key element a keyword comes from: the last one with its text. */
  lemma RunKwargsEntry(item: Elem, i: nat) returns (j: nat)
    requires RunKwargs(item).Ok? && i < |RunKwargs(item).value|
    ensures j < |item.children| / 2
    ensures item.children[2 * j].text == Some(RunKwargs(item).value[i].0)
    ensures RunKwargs(item).value[i].1 == TextValue(item.children[2 * j + 1].text)
    ensures forall l :: j < l < |item.children| / 2 ==> item.children[2 * l].text != Some(RunKwargs(item).value[i].0)
  {
    var ps := Pairs(item);
    var qs := seq(|ps|, i requires 0 <= i < |ps| => (ps[i].0.value, TextValue(ps[i].1)));
    var kw := RunKwargs(item).value;
    DictFromMeaning(qs);
    j := LastWith(qs, kw[i].0, kw[i].1);
    assert qs[j] == (ps[j].0.value, TextValue(ps[j].1));
    assert ps[j] == (item.children[2 * j].text, item.children[2 * j + 1].text);
    forall l | j < l < |ps| ensures item.children[2 * l].text != Some(kw[i].0) {
      assert qs[l].0 == ps[l].0.value;
    }
  }

  /** The pair `Lookup` finds: the last one with that key. */
  lemma {:induction false} LastWith<K, V>(ps: seq<(K, V)>, k: K, v: V) returns (j: nat)
    requires Lookup(ps, k) == Some(v)
    ensures j < |ps| && ps[j] == (k, v) && forall l :: j < l < |ps| ==> ps[l].0 != k
  {
    if ps[|ps| - 1].0 == k {
      j := |ps| - 1;
    } else {
      j := LastWith(ps[..|ps| - 1], k, v);
    }
  }

  // ---------------------------------------------------------------------
  // The scan

  /** Where the scan stands: the keyword lists of the songs to build so far,
      the exception that ended it, and the last item whose first element
      read "Track ID" (the one `keys` and `values` were taken from). */
  datatype Scan = Scan(runs: seq<Kwargs>, error: Option<Error>, last: Option<Elem>)

  /** The item whose keys and values the `else` branch uses: the item itself
      when it starts with "Track ID", the previous such item otherwise. */
  function Source(sc: Scan, item: Elem): Option<Elem>
    requires |item.children| > 0
  {
    if item.children[0].text == Some("Track ID") then Some(item) else sc.last
  }

  /** One item: an item without children is skipped (`IndexError`, with no
      `else`); any other one yields the run of its source item, and with no
      source yet the `else` branch reads unbound `keys`. */
  function ScanItem(sc: Scan, item: Elem): Scan {
    if |item.children| == 0 then sc
    else
      match Source(sc, item)
      case None => sc.(error := Some(UnboundLocalError))
      case Some(src) =>
        match RunKwargs(src)
        case Err(e) => Scan(sc.runs, Some(e), Some(src))
        case Ok(kw) => Scan(sc.runs + [kw], None, Some(src))
  }

  /** The scan of a list of items, ending at the first exception. */
  function ScanAll(items: seq<Elem>): Scan {
    if |items| == 0 then Scan([], None, None)
    else
      var sc := ScanAll(items[..|items| - 1]);
      if sc.error.Some? then sc else ScanItem(sc, items[|items| - 1])
  }

  /** The generator run: the songs built from the runs in order, then the
      scan's own exception; a failed construction ends it first. */
  function TunesStream(gen: Generation, root: Elem, limit: int): Stream {
    match TracksDict(root)
    case Err(e) => Stream([], Some(e))
    case Ok(d) =>
      ItemsStream(gen, Window(d.children, limit))
  }

  lemma ScanAt(items: seq<Elem>, i: nat)
    requires i < |items|
    ensures ScanAll(items[..i + 1]) ==
      if ScanAll(items[..i]).error.Some? then ScanAll(items[..i]) else ScanItem(ScanAll(items[..i]), items[i])
  {
    TakeSnoc(items, i);
  }

  lemma ScanSnoc(items: seq<Elem>, item: Elem)
    ensures ScanAll(items + [item]) ==
      if ScanAll(items).error.Some? then ScanAll(items) else ScanItem(ScanAll(items), item)
  {
    SnocTake(items, item);
  }

  /** The runs of a prefix start the runs of the whole list, and an
      exception in a prefix is the scan's exception. */
  lemma {:induction false} ScanPrefix(items: seq<Elem>, i: nat)
    requires i <= |items|
    ensures |ScanAll(items[..i]).runs| <= |ScanAll(items).runs|
    ensures ScanAll(items[..i]).runs == ScanAll(items).runs[..|ScanAll(items[..i]).runs|]
    ensures ScanAll(items[..i]).error.Some? ==> ScanAll(items) == ScanAll(items[..i])
    decreases |items| - i
  {
    if i == |items| {
      TakeAll(items);
    } else {
      var a := ScanAll(items[..i]);
      var b := ScanAll(items[..i + 1]);
      ScanAt(items, i);
      assert |a.runs| <= |b.runs| && a.runs == b.runs[..|a.runs|];
      ScanPrefix(items, i + 1);
      var c := ScanAll(items);
      assert b.runs == c.runs[..|b.runs|];
      assert a.runs == c.runs[..|a.runs|];
    }
  }

  // ---------------------------------------------------------------------
  // Properties of the scan

  /** The items with children: the tracks. */
  function Tracks(items: seq<Elem>): seq<Elem> {
    if |items| == 0 then []
    else if |items[|items| - 1].children| == 0 then Tracks(items[..|items| - 1])
    else Tracks(items[..|items| - 1]) + [items[|items| - 1]]
  }

  /** A well-formed library: every track starts with "Track ID" and has
      text in every key element. */
  predicate WellFormed(items: seq<Elem>) {
    forall i :: 0 <= i < |items| && |items[i].children| > 0 ==>
      items[i].children[0].text == Some("Track ID") && RunKwargs(items[i]).Ok?
  }

  /** On a well-formed library the scan raises nothing and yields one run
      per track, in document order, each built from its own track. */
  lemma {:induction false} ScanWellFormed(items: seq<Elem>)
    requires WellFormed(items)
    ensures ScanAll(items).error.None?
    ensures |ScanAll(items).runs| == |Tracks(items)|
    ensures forall i :: 0 <= i < |Tracks(items)| ==> RunKwargs(Tracks(items)[i]) == Ok(ScanAll(items).runs[i])
  {
    if |items| > 0 {
      var init := items[..|items| - 1];
      var item := items[|items| - 1];
      assert WellFormed(init) by {
        forall i | 0 <= i < |init| ensures init[i] == items[i] { }
      }
      ScanWellFormed(init);
      ScanSnoc(init, item);
      TakeSnoc(items, |items| - 1);
      TakeAll(items);
      if |item.children| > 0 {
        assert item.children[0].text == Some("Track ID") && RunKwargs(item).Ok?;
        assert ScanAll(items).runs == ScanAll(init).runs + [RunKwargs(item).value];
        assert Tracks(items) == Tracks(init) + [item];
      }
    }
  }

  /** An item with children that does not start with "Track ID" repeats the
      run of the last one that did, or ends the scan with
      `UnboundLocalError` when there was none. */
  lemma ScanRepeats(items: seq<Elem>, item: Elem)
    requires ScanAll(items).error.None?
    requires |item.children| > 0 && item.children[0].text != Some("Track ID")
    ensures ScanAll(items).last.None? ==> ScanAll(items + [item]).error == Some(UnboundLocalError)
    ensures ScanAll(items).last.Some? && |ScanAll(items).runs| > 0 ==>
      ScanAll(items + [item]).runs == ScanAll(items).runs + [ScanAll(items).runs[|ScanAll(items).runs| - 1]]
  {
    ScanSnoc(items, item);
    if ScanAll(items).last.Some? && |ScanAll(items).runs| > 0 {
      ScanLastRun(items);
    }
  }

  /** Without an exception, the last run is that of the remembered item. */
  lemma {:induction false} ScanLastRun(items: seq<Elem>)
    requires ScanAll(items).error.None? && ScanAll(items).last.Some? && |ScanAll(items).runs| > 0
    ensures RunKwargs(ScanAll(items).last.value) == Ok(ScanAll(items).runs[|ScanAll(items).runs| - 1])
  {
    var init := items[..|items| - 1];
    var sc := ScanAll(init);
    assert ScanAll(items) == if sc.error.Some? then sc else ScanItem(sc, items[|items| - 1]);
    if ScanAll(items) == sc {
      ScanLastRun(init);
    } else {
      var src := Source(sc, items[|items| - 1]).value;
      assert ScanAll(items) == Scan(sc.runs + [RunKwargs(src).value], None, Some(src));
    }
  }

  /** An item without children changes nothing. */
  lemma ScanSkipsLeaf(items: seq<Elem>, item: Elem)
    requires |item.children| == 0
    ensures ScanAll(items + [item]) == ScanAll(items)
  {
    ScanSnoc(items, item);
  }

  // ---------------------------------------------------------------------
  // The adapter

  class TunesReadAdapter {
    const tree: Elem
    const limit: int

    constructor(tree: Elem, limit: int)
      ensures this.tree == tree && this.limit == limit
    {
      this.tree := tree;
      this.limit := limit;
    }

    /** `yield_song`, run to the end; the packaged and the legacy adapters
      differ only in the song class they build. */
    method YieldSong(gen: Generation) returns (s: Stream)
      ensures s == TunesStream(gen, tree, limit)
    {
      var d := TracksDict(tree);
      if d.Err? {
        return Stream([], Some(d.error));
      }
      s := YieldItems(gen, Window(d.value.children, limit));
    }
  }

  /** The run over the windowed items. */
  function ItemsStream(gen: Generation, items: seq<Elem>): Stream {
    ThenRaise(ConstructEach(gen, Tunes, ScanAll(items).runs), ScanAll(items).error)
  }

  /** What holds after the first `i` items: no exception, `source` is the
      remembered item, one song built per run. */
  ghost predicate ScannedUpTo(gen: Generation, items: seq<Elem>, i: nat, songs: seq<Song>, source: Option<Elem>) {
    && i <= |items|
    && ScanAll(items[..i]).error.None? && ScanAll(items[..i]).last == source
    && |songs| == |ScanAll(items[..i]).runs|
    && BuiltPrefix(gen, Tunes, ScanAll(items[..i]).runs, songs)
  }

  /** The `for item in s` loop of `yield_song`. */
  method YieldItems(gen: Generation, items: seq<Elem>) returns (s: Stream)
    ensures s == ItemsStream(gen, items)
  {
    var songs: seq<Song> := [];
    var source: Option<Elem> := None;
    var i := 0;
    while i < |items|
      invariant ScannedUpTo(gen, items, i, songs, source)
    {
      var stop: Option<Stream>;
      songs, source, stop := VisitItem(gen, items, i, songs, source);
      if stop.Some? {
        return stop.value;
      }
      i := i + 1;
    }
    TakeAll(items);
    s := Stream(songs, None);
    BuiltFromUnique(gen, Tunes, ScanAll(items).runs, s, ConstructEach(gen, Tunes, ScanAll(items).runs));
  }

  /** One turn of that loop: skip an item without children, take the keys
      and values of an item that starts with "Track ID", and build a song
      from the current keys and values. */
  method VisitItem(gen: Generation, items: seq<Elem>, i: nat, songs: seq<Song>, source: Option<Elem>)
    returns (songs': seq<Song>, source': Option<Elem>, stop: Option<Stream>)
    requires i < |items| && ScannedUpTo(gen, items, i, songs, source)
    ensures stop.None? ==> ScannedUpTo(gen, items, i + 1, songs', source')
    ensures stop.Some? ==> stop.value == ItemsStream(gen, items)
  {
    ghost var sc := ScanAll(items[..i]);
    ScanAt(items, i);
    songs', source', stop := songs, source, None;
    var item := items[i];
    if |item.children| == 0 {
      return;
    }
    if item.children[0].text == Some("Track ID") {
      source' := Some(item);
    }
    if source'.None? {
      ScanDone(gen, items, i + 1, songs);
      return songs, source', Some(Stream(songs, Some(UnboundLocalError)));
    }
    var kw := RunKwargs(source'.value);
    if kw.Err? {
      ScanDone(gen, items, i + 1, songs);
      return songs, source', Some(Stream(songs, Some(kw.error)));
    }
    var song := Construct(gen, Tunes, kw.value);
    if song.Err? {
      ScanBuildFails(gen, items, i + 1, songs, song.error);
      return songs, source', Some(Stream(songs, Some(song.error)));
    }
    BuiltPrefixSnoc(gen, Tunes, sc.runs + [kw.value], songs, song.value);
    songs' := songs + [song.value];
  }

  /** The run ends with a scan exception after the songs built so far. */
  lemma ScanDone(gen: Generation, items: seq<Elem>, i: nat, songs: seq<Song>)
    requires i <= |items| && ScanAll(items[..i]).error.Some?
    requires |songs| == |ScanAll(items[..i]).runs| && BuiltPrefix(gen, Tunes, ScanAll(items[..i]).runs, songs)
    ensures ItemsStream(gen, items) == Stream(songs, ScanAll(items[..i]).error)
  {
    ScanPrefix(items, i);
    var runs := ScanAll(items).runs;
    BuiltFromUnique(gen, Tunes, runs, Stream(songs, None), ConstructEach(gen, Tunes, runs));
  }

  /** The run ends with the construction exception of its next run. */
  lemma ScanBuildFails(gen: Generation, items: seq<Elem>, i: nat, songs: seq<Song>, e: Error)
    requires i <= |items| && |ScanAll(items[..i]).runs| == |songs| + 1
    requires BuiltPrefix(gen, Tunes, ScanAll(items[..i]).runs, songs)
    requires Build(gen, Tunes, ScanAll(items[..i]).runs[|songs|]) == Err(e)
    ensures ItemsStream(gen, items) == Stream(songs, Some(e))
  {
    ScanPrefix(items, i);
    var runs := ScanAll(items).runs;
    BuiltFromUnique(gen, Tunes, runs, Stream(songs, Some(e)), ConstructEach(gen, Tunes, runs));
  }
}
