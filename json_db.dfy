/** The JSON store of `musicmanager/adapter.py`: `JsonWriteAdapter`
    inserts `vars(song)` as one TinyDB document, `JsonReadAdapter` builds
    one `JsonSong` per stored document. TinyDB is a list of documents in
    insertion order; its serializer handles `datetime` values only. */
module JsonDb {
  import opened Py
  import opened Song
  import opened Reader

  /** The TinyDB table: its documents in insertion order. */
  class JsonStore {
    var docs: seq<Kwargs>

    constructor(stored: seq<Kwargs>)
      ensures docs == stored
    {
      docs := stored;
    }
  }

  /** A value the store can write: JSON has text, integers and `null`, and
      the registered serializer adds `datetime`; a plain `date` is neither. */
  predicate Storable(v: Value) {
    !v.Date?
  }

  /** The document `insert(vars(song))` writes, or the `TypeError` the
      encoder raises on a value it cannot write. */
  function Document(song: Song): (r: Result<Kwargs>)
    ensures r.Ok? <==> forall i :: 0 <= i < |Vars(song)| ==> Storable(Vars(song)[i].1)
    ensures r.Ok? ==> r.value == Vars(song)
    ensures r.Err? ==> r.error == TypeError
  {
    if forall i :: 0 <= i < |Vars(song)| ==> Storable(Vars(song)[i].1) then Ok(Vars(song))
    else Err(TypeError)
  }

  class JsonWriteAdapter {
    const store: JsonStore

    constructor(store: JsonStore)
      ensures this.store == store
    {
      this.store := store;
    }

    /** `write(song)`: append exactly one document, or raise and store
      nothing. */
    method Write(song: Song) returns (r: Option<Error>)
      modifies store
      ensures r.None? <==> Document(song).Ok?
      ensures r.None? ==> store.docs == old(store.docs) + [Vars(song)]
      ensures r.Some? ==> store.docs == old(store.docs) && r.value == TypeError
    {
      var doc := Document(song);
      if doc.Err? {
        return Some(doc.error);
      }
      store.docs := store.docs + [doc.value];
      return None;
    }
  }

  class JsonReadAdapter {
    const store: JsonStore

    constructor(store: JsonStore)
      ensures this.store == store
    {
      this.store := store;
    }

    /** `yield_song`: one `JsonSong` per document, in storage order. */
    method YieldSong() returns (s: Stream)
      ensures s == ConstructEach(Packaged, Json, store.docs)
    {
      s := YieldEach(Packaged, Json, store.docs);
    }
  }

  // ---------------------------------------------------------------------
  // Writing and reading back

  /** The attributes a song keeps through the store: all but the date,
      which is stored under `_date_added`, a key the allow-list drops. */
  function Reloaded(song: Song): Song {
    Song(song.attrs - {DateAdded})
  }

  /** A song that was built has only values the store can write. */
  lemma WellTypedStorable(song: Song)
    requires WellTyped(song)
    ensures Document(song) == Ok(Vars(song))
  {
    forall i | 0 <= i < |Vars(song)| ensures Storable(Vars(song)[i].1) {
      VarsFromValues(song, FIELDS, i);
    }
  }

  /** Every value of `vars(song)` is the value of one of the song's fields. */
  lemma {:induction false} VarsFromValues(song: Song, fs: seq<Field>, i: nat)
    requires i < |VarsFrom(song, fs)|
    ensures exists f :: f in song.attrs && VarsFrom(song, fs)[i] == (InstanceKey(f), song.attrs[f])
  {
    if fs[0] in song.attrs {
      if i > 0 {
        VarsFromValues(song, fs[1..], i - 1);
      }
    } else {
      VarsFromValues(song, fs[1..], i);
    }
  }

  /** `vars` over one more field. */
  lemma {:induction false} VarsFromSnoc(song: Song, fs: seq<Field>, f: Field)
    ensures VarsFrom(song, fs + [f]) ==
      VarsFrom(song, fs) + (if f in song.attrs then [(InstanceKey(f), song.attrs[f])] else [])
  {
    if |fs| == 0 {
      assert VarsFrom(song, [f][1..]) == [];
    } else {
      assert (fs + [f])[1..] == fs[1..] + [f];
      VarsFromSnoc(song, fs[1..], f);
    }
  }

  /** The song a `JsonSong` builds from the first k fields of `vars`. */
  function PartlyReloaded(song: Song, k: nat): Song
    requires k <= |FIELDS|
  {
    Song(map f | f in song.attrs && f in FIELDS[..k] && f != DateAdded :: song.attrs[f])
  }

  lemma {:induction false} ReloadPrefix(song: Song, k: nat)
    requires WellTyped(song) && k <= |FIELDS|
    ensures Build(Packaged, Json, VarsFrom(song, FIELDS[..k])) == Ok(PartlyReloaded(song, k))
  {
    if k == 0 {
      assert PartlyReloaded(song, 0).attrs == map[];
    } else {
      var f := FIELDS[k - 1];
      TakeSnoc(FIELDS, k - 1);
      VarsFromSnoc(song, FIELDS[..k - 1], f);
      ReloadPrefix(song, k - 1);
      var prev := PartlyReloaded(song, k - 1);
      PartlyReloadedSnoc(song, k);
      if f in song.attrs {
        ReloadField(song, VarsFrom(song, FIELDS[..k - 1]), prev, f);
      } else {
        assert VarsFrom(song, FIELDS[..k]) == VarsFrom(song, FIELDS[..k - 1]);
      }
    }
  }

  lemma PartlyReloadedSnoc(song: Song, k: nat)
    requires 0 < k <= |FIELDS|
    ensures var f := FIELDS[k - 1];
      PartlyReloaded(song, k) ==
        if f in song.attrs && f != DateAdded then Song(PartlyReloaded(song, k - 1).attrs[f := song.attrs[f]])
        else PartlyReloaded(song, k - 1)
  {
    TakeSnoc(FIELDS, k - 1);
  }

  /** One stored attribute read back: the date's private key is dropped,
      any other attribute is set to the value it had. */
  lemma ReloadField(song: Song, kws: Kwargs, prev: Song, f: Field)
    requires WellTyped(song) && f in song.attrs && Build(Packaged, Json, kws) == Ok(prev)
    ensures Build(Packaged, Json, kws + [(InstanceKey(f), song.attrs[f])]) ==
      Ok(if f == DateAdded then prev else Song(prev.attrs[f := song.attrs[f]]))
  {
    var kv := (InstanceKey(f), song.attrs[f]);
    BuildSnoc(Packaged, Json, kws, kv);
    if f == DateAdded {
      PrivateKeyNotAllowed();
    } else {
      assert FieldOf(FieldName(f)) == Some(f);
      assert TypedAs(f, song.attrs[f]);
    }
  }

  /** Reading back what was written gives the song without its date: every
      other attribute keeps its value. */
  lemma JsonRoundTrip(song: Song)
    requires WellTyped(song)
    ensures Build(Packaged, Json, Vars(song)) == Ok(Reloaded(song))
  {
    ReloadPrefix(song, |FIELDS|);
    TakeAll(FIELDS);
    ReloadedAll(song);
  }

  /** Over all the fields, the partly reloaded song is the reloaded one. */
  lemma ReloadedAll(song: Song)
    ensures PartlyReloaded(song, |FIELDS|) == Reloaded(song)
  {
    TakeAll(FIELDS);
    forall f | f in song.attrs ensures f in FIELDS {
      FieldListed(f);
    }
    assert PartlyReloaded(song, |FIELDS|).attrs == Reloaded(song).attrs;
  }

  /** After a write, the reader yields what it yielded before and then the
      written song, reloaded. */
  lemma {:induction false} ReadAfterWrite(docs: seq<Kwargs>, song: Song)
    requires WellTyped(song) && ConstructEach(Packaged, Json, docs).error.None?
    ensures ConstructEach(Packaged, Json, docs + [Vars(song)]) ==
      Stream(ConstructEach(Packaged, Json, docs).items + [Reloaded(song)], None)
  {
    JsonRoundTrip(song);
    var before := ConstructEach(Packaged, Json, docs);
    var after := Stream(before.items + [Reloaded(song)], None);
    var all := docs + [Vars(song)];
    assert BuiltFrom(Packaged, Json, all, after) by {
      forall i | 0 <= i < |after.items|
        ensures Build(Packaged, Json, all[i]) == Ok(after.items[i])
      {
        if i < |docs| {
          assert all[i] == docs[i];
        }
      }
    }
    BuiltFromUnique(Packaged, Json, all, after, ConstructEach(Packaged, Json, all));
  }
}
