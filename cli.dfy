/** The command line of `musicmanager/cli.py`: which reader and writer the
    parsed arguments select, with which constructor arguments, and the
    migrate loop that feeds every song the reader yields to the writer.
    The adapter registry and the parsed arguments are given as values. */
module Cli {
  import opened Py
  import opened Song
  import opened Reader
  import opened Player
  import opened JsonDb

  /** A parsed argument value: a `store_true` flag, text, a number,
      `None`, or the `inspect.Parameter.empty` marker of a parameter
      without a default. */
  datatype Arg = Flag(on: bool) | Text(s: string) | Number(n: int) | ArgNone | NoDefault

  /** Truthiness of an argument value. */
  predicate ArgTruthy(a: Arg) {
    match a
    case Flag(on) => on
    case Text(s) => s != ""
    case Number(n) => n != 0
    case ArgNone => false
    case NoDefault => true
  }

  /** A constructor parameter and its default. */
  datatype Param = Param(name: string, default: Arg)

  /** A registered adapter: its class name and its constructor's
      parameters in signature order. */
  datatype Adapter = Adapter(name: string, params: seq<Param>)

  datatype AdapterType = READER | WRITER

  const ADAPTER_TYPES: seq<AdapterType> := [READER, WRITER]

  /** The registry `get_adaptors` builds: the adapters of each type. */
  datatype Registry = Registry(readers: seq<Adapter>, writers: seq<Adapter>)

  function AdaptersOf(reg: Registry, t: AdapterType): seq<Adapter> {
    if t == READER then reg.readers else reg.writers
  }

  /** `args._get_kwargs()`: the namespace's attributes in insertion order. */
  type Namespace = seq<(string, Arg)>

  /** `functools.partial(cls, **kwargs)`. */
  datatype Partial = Partial(adapter: Adapter, kwargs: seq<(string, Arg)>)

  function Names(adapters: seq<Adapter>): (names: seq<string>)
    ensures |names| == |adapters| && forall i :: 0 <= i < |adapters| ==> names[i] == adapters[i].name
  {
    seq(|adapters|, i requires 0 <= i < |adapters| => adapters[i].name)
  }

  /** `get_all_adapter_names`: per type, the adapter names in registry
      order; a type without adapters gets no entry. */
  method GetAllAdapterNames(reg: Registry) returns (r: map<AdapterType, seq<string>>)
    ensures forall t :: t in r <==> |AdaptersOf(reg, t)| > 0
    ensures forall t :: t in r ==> r[t] == Names(AdaptersOf(reg, t))
  {
    r := map[];
    for ti := 0 to |ADAPTER_TYPES|
      invariant forall t :: t in r <==> t in ADAPTER_TYPES[..ti] && |AdaptersOf(reg, t)| > 0
      invariant forall t :: t in r ==> r[t] == Names(AdaptersOf(reg, t))
    {
      var t := ADAPTER_TYPES[ti];
      var adapters := AdaptersOf(reg, t);
      for j := 0 to |adapters|
        invariant forall u :: u != t ==> (u in r <==> u in ADAPTER_TYPES[..ti] && |AdaptersOf(reg, u)| > 0)
        invariant forall u :: u != t && u in r ==> r[u] == Names(AdaptersOf(reg, u))
        invariant t in r <==> j > 0
        invariant t in r ==> r[t] == Names(adapters[..j])
      {
        var names := if t in r then r[t] else [];
        r := r[t := names + [adapters[j].name]];
      }
      TakeAll(adapters);
    }
    forall t ensures t in ADAPTER_TYPES {
      EveryType(t);
    }
    TakeAll(ADAPTER_TYPES);
  }

  lemma EveryType(t: AdapterType)
    ensures t in ADAPTER_TYPES
  {
    if t == READER { assert ADAPTER_TYPES[0] == t; } else { assert ADAPTER_TYPES[1] == t; }
  }

  // ---------------------------------------------------------------------
  // Constructor arguments

  /** No two parameters of a signature share a name. */
  predicate UniqueParams(params: seq<Param>) {
    forall i, j :: 0 <= i < j < |params| ==> params[i].name != params[j].name
  }

  /** The value a parameter receives: the parsed argument when the
      namespace has it and it is not `None`, the default otherwise. */
  function Chosen(p: Param, ns: Namespace): Arg {
    match Lookup(ns, p.name)
    case Some(v) => if v != ArgNone then v else p.default
    case None => p.default
  }

  function MatchingKwargs(params: seq<Param>, ns: Namespace): seq<(string, Arg)> {
    seq(|params|, i requires 0 <= i < |params| => (params[i].name, Chosen(params[i], ns)))
  }

  /** `get_matching_kwargs`: exactly one entry per constructor parameter, in
      signature order (a signature never repeats a name). */
  method GetMatchingKwargs(params: seq<Param>, ns: Namespace) returns (r: seq<(string, Arg)>)
    requires UniqueParams(params)
    ensures Distinct(Keys(r)) && |r| == |params|
    ensures forall i :: 0 <= i < |params| ==> r[i] == (params[i].name, Chosen(params[i], ns))
    ensures r == MatchingKwargs(params, ns)
  {
    r := [];
    for i := 0 to |params|
      invariant |r| == i && forall j :: 0 <= j < i ==> r[j] == (params[j].name, Chosen(params[j], ns))
    {
      var p := params[i];
      var value := ArgOrDefault(p, ns);
      NewParam(params, r, i);
      ghost var prev := r;
      r := DictInsert(r, p.name, value);
      assert r == prev + [(p.name, value)];
    }
    KwargsComplete(params, ns, r);
  }

  lemma KwargsComplete(params: seq<Param>, ns: Namespace, r: seq<(string, Arg)>)
    requires UniqueParams(params)
    requires |r| == |params| && forall j :: 0 <= j < |params| ==> r[j] == (params[j].name, Chosen(params[j], ns))
    ensures Distinct(Keys(r)) && r == MatchingKwargs(params, ns)
  {
  }

  /** The value one parameter receives. */
  method ArgOrDefault(p: Param, ns: Namespace) returns (value: Arg)
    ensures value == Chosen(p, ns)
  {
    var given := Lookup(ns, p.name);
    if given.Some? && given.value != ArgNone {
      value := given.value;
    } else {
      value := p.default;
    }
  }

  lemma NewParam(params: seq<Param>, r: seq<(string, Arg)>, i: nat)
    requires UniqueParams(params) && i < |params| && |r| == i
    requires forall j :: 0 <= j < i ==> r[j].0 == params[j].name
    ensures params[i].name !in Keys(r)
  {
  }

  // ---------------------------------------------------------------------
  // Selecting the adapters

  /** The last adapter of the list with that name. */
  function LastNamed(adapters: seq<Adapter>, name: string): (r: Option<Adapter>)
    ensures r.Some? ==> r.value in adapters && r.value.name == name
    ensures r.Some? ==> (exists i :: 0 <= i < |adapters| && adapters[i] == r.value
                          && forall j :: i < j < |adapters| ==> adapters[j].name != name)
    ensures r.None? <==> name !in Names(adapters)
  {
    if |adapters| == 0 then None
    else
      var last := |adapters| - 1;
      if adapters[last].name == name then Some(adapters[last])
      else
        var init := adapters[..last];
        var r := LastNamed(init, name);
        assert forall j :: 0 <= j < last ==> init[j] == adapters[j];
        assert Names(adapters) == Names(init) + [adapters[last].name];
        r
  }

  /** The adapter of one type the arguments select: each truthy argument
      that names an adapter overrides the selection so far. */
  function Selected(adapters: seq<Adapter>, ns: Namespace): Option<Adapter> {
    if |ns| == 0 then None
    else
      var prior := Selected(adapters, ns[..|ns| - 1]);
      var (name, enabled) := ns[|ns| - 1];
      if !ArgTruthy(enabled) then prior
      else Choose(prior, LastNamed(adapters, name))
  }

  function Choose(prior: Option<Adapter>, found: Option<Adapter>): Option<Adapter> {
    if found.Some? then found else prior
  }

  /** A selection is built from the adapter and the arguments. */
  function ToPartial(a: Option<Adapter>, ns: Namespace): Option<Partial> {
    match a
    case Some(x) => Some(Partial(x, MatchingKwargs(x.params, ns)))
    case None => None
  }

  function Entry(m: map<AdapterType, Partial>, t: AdapterType): Option<Partial> {
    if t in m then Some(m[t]) else None
  }

  /** Python guarantees distinct parameter names in every signature. */
  predicate SignaturesDistinct(reg: Registry) {
    forall t, i :: 0 <= i < |AdaptersOf(reg, t)| ==> UniqueParams(AdaptersOf(reg, t)[i].params)
  }

  /** `get_adapters_in_args`: per type, the selection. */
  method GetAdaptersInArgs(reg: Registry, ns: Namespace) returns (result: map<AdapterType, Partial>)
    requires SignaturesDistinct(reg)
    ensures forall t :: Entry(result, t) == ToPartial(Selected(AdaptersOf(reg, t), ns), ns)
  {
    var allAdapterNames := GetAllAdapterNames(reg);
    result := map[];
    for ti := 0 to |ADAPTER_TYPES|
      invariant forall t :: t in ADAPTER_TYPES[..ti] ==> Entry(result, t) == ToPartial(Selected(AdaptersOf(reg, t), ns), ns)
      invariant forall t :: t !in ADAPTER_TYPES[..ti] ==> t !in result
    {
      var t := ADAPTER_TYPES[ti];
      ghost var prev := result;
      result := SelectType(reg, t, ns, result);
      TakeSnoc(ADAPTER_TYPES, ti);
      forall u | u !in ADAPTER_TYPES[..ti + 1] ensures u !in result {
        assert Entry(result, u) == Entry(prev, u);
      }
    }
    forall t ensures t in ADAPTER_TYPES {
      EveryType(t);
    }
    TakeAll(ADAPTER_TYPES);
  }

  /** The loops of `get_adapters_in_args` for one type. */
  method SelectType(reg: Registry, t: AdapterType, ns: Namespace, before: map<AdapterType, Partial>)
    returns (result: map<AdapterType, Partial>)
    requires SignaturesDistinct(reg) && t !in before
    ensures forall u :: u != t ==> Entry(result, u) == Entry(before, u)
    ensures Entry(result, t) == ToPartial(Selected(AdaptersOf(reg, t), ns), ns)
  {
    var adapters := AdaptersOf(reg, t);
    result := before;
    for k := 0 to |ns|
      invariant forall u :: u != t ==> Entry(result, u) == Entry(before, u)
      invariant Entry(result, t) == ToPartial(Selected(adapters, ns[..k]), ns)
    {
      var (name, enabled) := ns[k];
      TakeSnoc(ns, k);
      if !ArgTruthy(enabled) {
        continue;
      }
      ghost var prior := Selected(adapters, ns[..k]);
      for j := 0 to |adapters|
        invariant forall u :: u != t ==> Entry(result, u) == Entry(before, u)
        invariant Entry(result, t) == ToPartial(Choose(prior, LastNamed(adapters[..j], name)), ns)
      {
        TakeSnoc(adapters, j);
        if adapters[j].name == name {
          var cls := adapters[j];
          var outputArgs := GetMatchingKwargs(cls.params, ns);
          result := result[t := Partial(cls, outputArgs)];
        }
      }
      TakeAll(adapters);
    }
    TakeAll(ns);
  }

  /** An adapter is selected only by a truthy argument with exactly its
      name, and no later truthy argument names an adapter of that type;
      nothing is selected exactly when no truthy argument names one. */
  lemma {:induction false} SelectedMeaning(adapters: seq<Adapter>, ns: Namespace)
    ensures Selected(adapters, ns).None? <==>
      forall i :: 0 <= i < |ns| && ArgTruthy(ns[i].1) ==> ns[i].0 !in Names(adapters)
    ensures Selected(adapters, ns).Some? ==>
      exists i :: 0 <= i < |ns| && ArgTruthy(ns[i].1)
        && Selected(adapters, ns) == LastNamed(adapters, ns[i].0)
        && (forall l :: i < l < |ns| && ArgTruthy(ns[l].1) ==> ns[l].0 !in Names(adapters))
  {
    SelectedNone(adapters, ns);
    if Selected(adapters, ns).Some? {
      var i := SelectedBy(adapters, ns);
    }
  }

  /** Nothing is selected exactly when no truthy argument names an adapter. */
  lemma {:induction false} SelectedNone(adapters: seq<Adapter>, ns: Namespace)
    ensures Selected(adapters, ns).None? <==>
      forall i :: 0 <= i < |ns| && ArgTruthy(ns[i].1) ==> ns[i].0 !in Names(adapters)
  {
    if |ns| > 0 {
      var init := ns[..|ns| - 1];
      SelectedNone(adapters, init);
      assert forall i :: 0 <= i < |init| ==> init[i] == ns[i];
    }
  }

  /** The argument a selection comes from: the last truthy one naming an
      adapter. */
  lemma {:induction false} SelectedBy(adapters: seq<Adapter>, ns: Namespace) returns (i: nat)
    requires Selected(adapters, ns).Some?
    ensures i < |ns| && ArgTruthy(ns[i].1) && Selected(adapters, ns) == LastNamed(adapters, ns[i].0)
    ensures forall l :: i < l < |ns| && ArgTruthy(ns[l].1) ==> ns[l].0 !in Names(adapters)
  {
    var init := ns[..|ns| - 1];
    var (name, enabled) := ns[|ns| - 1];
    if ArgTruthy(enabled) && name in Names(adapters) {
      i := |ns| - 1;
    } else {
      i := SelectedBy(adapters, init);
      assert ns[i] == init[i];
      forall l | i < l < |ns| && ArgTruthy(ns[l].1) ensures ns[l].0 !in Names(adapters) {
        if l < |init| {
          assert ns[l] == init[l];
        }
      }
    }
  }

  /** `get_read_write_adapters`: `SystemExit` unless both a reader and a
      writer are selected (a `partial` is always truthy). */
  method GetReadWriteAdapters(ns: Namespace, reg: Registry) returns (r: Result<(Partial, Partial)>)
    requires SignaturesDistinct(reg)
    ensures r.Err? <==> Selected(reg.readers, ns).None? || Selected(reg.writers, ns).None?
    ensures r.Err? ==> r.error == SystemExit
    ensures r.Ok? ==> r.value == (ToPartial(Selected(reg.readers, ns), ns).value, ToPartial(Selected(reg.writers, ns), ns).value)
  {
    var adaptersByArgs := GetAdaptersInArgs(reg, ns);
    var reader := Entry(adaptersByArgs, READER);
    var writer := Entry(adaptersByArgs, WRITER);
    if reader.None? || writer.None? {
      return Err(SystemExit);
    }
    return Ok((reader.value, writer.value));
  }

  // ---------------------------------------------------------------------
  // The migrate loop

  /** The writer `cli_migrate` writes to. */
  datatype Sink = JsonSink(json: JsonWriteAdapter) | MusicSink(music: MacOSMusicWriteAdapter)

  /** What a writer holds: the stored documents, or the app and its skip
      file. */
  datatype SinkState = JsonState(docs: seq<Kwargs>) | MusicState(player: PlayerState)

  function Footprint(sink: Sink): set<object> {
    match sink
    case JsonSink(w) => {w.store}
    case MusicSink(w) => {w.reader.app, w.reader.skipped}
  }

  function StateOf(sink: Sink): (st: SinkState)
    reads Footprint(sink)
    ensures Holds(sink, st)
  {
    match sink
    case JsonSink(w) => JsonState(w.store.docs)
    case MusicSink(w) => MusicState(w.reader.State())
  }

  ghost predicate SinkValid(sink: Sink)
    reads Footprint(sink)
  {
    sink.MusicSink? ==> sink.music.reader.app.Valid()
  }

  /** One `w.write(song)`: the new state and the exception, if any. */
  function WriteOne(sink: Sink, st: SinkState, song: Song, today: CalDate): (r: (SinkState, Option<Error>))
    requires Holds(sink, st)
    ensures Holds(sink, r.0)
  {
    match sink
    case JsonSink(_) =>
      (match Document(song)
       case Err(e) => (st, Some(e))
       case Ok(d) => (JsonState(st.docs + [d]), None))
    case MusicSink(w) =>
      var (p, e) := WriteSpec(st.player, song, w.matchFields, w.excludeFields, today);
      (MusicState(p), e)
  }

  /** The state is the kind the writer keeps. */
  predicate Holds(sink: Sink, st: SinkState) {
    sink.JsonSink? <==> st.JsonState?
  }

  /** The loop run to the end: for each song, the log line (which formats
      the song) and the write; the first exception ends it, and the
      reader's own exception is raised after its last song. */
  function MigrateSpec(sink: Sink, st: SinkState, songs: seq<Song>, error: Option<Error>, today: CalDate): (SinkState, Option<Error>)
    requires Holds(sink, st)
    decreases |songs|
  {
    if |songs| == 0 then (st, error)
    else if StrError(songs[0], today).Some? then (st, StrError(songs[0], today))
    else
      var (st1, e) := WriteOne(sink, st, songs[0], today);
      if e.Some? then (st1, e) else MigrateSpec(sink, st1, songs[1..], error, today)
  }

  /** `cli_migrate`'s `for song in r: ... w.write(song)` over the reader's
      run. */
  method Migrate(s: Stream, sink: Sink, today: CalDate) returns (r: Option<Error>)
    requires SinkValid(sink)
    modifies Footprint(sink)
    ensures SinkValid(sink)
    ensures (StateOf(sink), r) == MigrateSpec(sink, old(StateOf(sink)), s.items, s.error, today)
  {
    var i := 0;
    while i < |s.items|
      invariant 0 <= i <= |s.items| && SinkValid(sink)
      invariant MigrateSpec(sink, old(StateOf(sink)), s.items, s.error, today)
        == MigrateSpec(sink, StateOf(sink), s.items[i..], s.error, today)
    {
      var song := s.items[i];
      assert s.items[i..][0] == song && s.items[i..][1..] == s.items[i + 1..];
      var logged := StrError(song, today);
      if logged.Some? {
        return logged;
      }
      ghost var before := StateOf(sink);
      var e := WriteTo(sink, song, today);
      assert (StateOf(sink), e) == WriteOne(sink, before, song, today);
      if e.Some? {
        return e;
      }
      i := i + 1;
    }
    return s.error;
  }

  /** `w.write(song)` on whichever writer was selected. */
  method WriteTo(sink: Sink, song: Song, today: CalDate) returns (e: Option<Error>)
    requires SinkValid(sink)
    modifies Footprint(sink)
    ensures SinkValid(sink)
    ensures (StateOf(sink), e) == WriteOne(sink, old(StateOf(sink)), song, today)
  {
    match sink
    case JsonSink(w) =>
      e := w.Write(song);
    case MusicSink(w) =>
      e := w.Write(song, today);
  }

  /** Into the JSON store, well-typed songs that format without error are
      written once each, in the reader's order, and the reader's own
      exception ends the run. */
  lemma {:induction false} MigrateToJson(w: JsonWriteAdapter, docs: seq<Kwargs>, songs: seq<Song>, error: Option<Error>, today: CalDate)
    requires forall i :: 0 <= i < |songs| ==> WellTyped(songs[i]) && StrError(songs[i], today).None?
    ensures MigrateSpec(JsonSink(w), JsonState(docs), songs, error, today) ==
      (JsonState(docs + seq(|songs|, i requires 0 <= i < |songs| => Vars(songs[i]))), error)
    decreases |songs|
  {
    if |songs| > 0 {
      JsonStep(w, docs, songs, error, today);
      assert forall i :: 0 <= i < |songs[1..]| ==> songs[1..][i] == songs[i + 1];
      MigrateToJson(w, docs + [Vars(songs[0])], songs[1..], error, today);
      VarsSeqCons(docs, songs);
    } else {
      assert docs + seq(|songs|, i requires 0 <= i < |songs| => Vars(songs[i])) == docs;
    }
  }

  /** One well-typed song into the JSON store: its document is appended
      and the rest of the songs follow. */
  lemma JsonStep(w: JsonWriteAdapter, docs: seq<Kwargs>, songs: seq<Song>, error: Option<Error>, today: CalDate)
    requires |songs| > 0 && WellTyped(songs[0]) && StrError(songs[0], today).None?
    ensures MigrateSpec(JsonSink(w), JsonState(docs), songs, error, today) ==
      MigrateSpec(JsonSink(w), JsonState(docs + [Vars(songs[0])]), songs[1..], error, today)
  {
    WellTypedStorable(songs[0]);
    assert WriteOne(JsonSink(w), JsonState(docs), songs[0], today) == (JsonState(docs + [Vars(songs[0])]), None);
  }

  /** The documents of the songs: the first one's, then the rest's. */
  lemma VarsSeqCons(docs: seq<Kwargs>, songs: seq<Song>)
    requires |songs| > 0
    ensures docs + seq(|songs|, i requires 0 <= i < |songs| => Vars(songs[i])) ==
      (docs + [Vars(songs[0])]) + seq(|songs[1..]|, i requires 0 <= i < |songs[1..]| => Vars(songs[1..][i]))
  {
    var all := seq(|songs|, i requires 0 <= i < |songs| => Vars(songs[i]));
    var rest := seq(|songs[1..]|, i requires 0 <= i < |songs[1..]| => Vars(songs[1..][i]));
    assert all == [Vars(songs[0])] + rest;
  }

  /** Into the Music app, the library keeps its tracks and every track its
      properties, whatever the songs. */
  lemma {:induction false} MigrateToMusicKeepsLibrary(w: MacOSMusicWriteAdapter, st: PlayerState, songs: seq<Song>, error: Option<Error>, today: CalDate)
    requires forall i :: 0 <= i < |st.tracks| ==> Distinct(Keys(st.tracks[i]))
    ensures MigrateSpec(MusicSink(w), MusicState(st), songs, error, today).0.MusicState?
    ensures var p := MigrateSpec(MusicSink(w), MusicState(st), songs, error, today).0.player;
      |p.tracks| == |st.tracks| && forall i :: 0 <= i < |st.tracks| ==> Keys(p.tracks[i]) == Keys(st.tracks[i])
    decreases |songs|
  {
    if |songs| > 0 && StrError(songs[0], today).None? {
      var (p1, e) := WriteSpec(st, songs[0], w.matchFields, w.excludeFields, today);
      WriteKeepsLibrary(st, songs[0], w.matchFields, w.excludeFields, today);
      MusicStep(w, st, songs, error, today);
      if e.None? {
        MigrateToMusicKeepsLibrary(w, p1, songs[1..], error, today);
      }
    }
  }

  /** One song into the Music app: its write, then the rest of the songs
      unless the write raised. */
  lemma MusicStep(w: MacOSMusicWriteAdapter, st: PlayerState, songs: seq<Song>, error: Option<Error>, today: CalDate)
    requires |songs| > 0 && StrError(songs[0], today).None?
    ensures var (p1, e) := WriteSpec(st, songs[0], w.matchFields, w.excludeFields, today);
      MigrateSpec(MusicSink(w), MusicState(st), songs, error, today) ==
        if e.Some? then (MusicState(p1), e) else MigrateSpec(MusicSink(w), MusicState(p1), songs[1..], error, today)
  {
  }
}
