/** The derived views and the overloaded operators of `BaseSong`:
    `rating_in_stars`, `count_stars`, `@`, `==`, `>=` and `<`. */
module SongOps {
  import opened Py
  import opened Song
  import Utf8

  /** U+2B50, the star, and the emoji glyph `rating_in_stars` repeats: the
      star followed by the variation selector U+FE0F. */
  const STAR: char := '\U{2B50}'
  const GLYPH: string := ['\U{2B50}', '\U{FE0F}']

  /** The bytes `count_stars` searches for: the UTF-8 encoding of U+2B50. */
  const STAR_BYTES: seq<Utf8.Byte> := [0xE2, 0xAD, 0x90]

  /** `count_stars`: the occurrences of the star's bytes in the UTF-8
      encoding of the text. */
  function CountStars(s: string): nat {
    Utf8.Count(Utf8.Encode(s), STAR_BYTES)
  }

  /** The number of times a character occurs in a string. */
  function Occurrences(s: string, c: char): nat {
    if |s| == 0 then 0 else (if s[0] == c then 1 else 0) + Occurrences(s[1..], c)
  }

  lemma {:induction false} OccurrencesAppend(a: string, b: string, c: char)
    ensures Occurrences(a + b, c) == Occurrences(a, c) + Occurrences(b, c)
  {
    if |a| > 0 {
      assert (a + b)[1..] == a[1..] + b;
      OccurrencesAppend(a[1..], b, c);
    } else {
      assert a + b == b;
    }
  }

  /** Only the star encodes to the star's bytes. */
  lemma EncodesToStar(c: char)
    ensures Utf8.EncodeChar(c) == STAR_BYTES <==> c == STAR
  {
    var n := c as int;
    if Utf8.EncodeChar(c) == STAR_BYTES {
      assert 0x800 <= n < 0x10000;
      assert n / 0x1000 == 2;
      assert (n / 0x40) % 0x40 == 0x2D;
      assert n % 0x40 == 0x10;
      var q := n / 0x40;
      assert n == 0x40 * q + n % 0x40;
      assert q == 0x40 * (q / 0x40) + q % 0x40;
      assert q / 0x40 == n / 0x1000;
      assert n == 0x2B50;
    }
  }

  /** Continuation bytes never start a star, so they are stepped over. */
  lemma {:induction false} SkipContinuations(xs: seq<Utf8.Byte>, rest: seq<Utf8.Byte>)
    requires forall i :: 0 <= i < |xs| ==> Utf8.IsContinuation(xs[i])
    ensures Utf8.Count(xs + rest, STAR_BYTES) == Utf8.Count(rest, STAR_BYTES)
  {
    if |xs| > 0 {
      Utf8.SkipByte(xs + rest, STAR_BYTES);
      assert (xs + rest)[1..] == xs[1..] + rest;
      SkipContinuations(xs[1..], rest);
    } else {
      assert xs + rest == rest;
    }
  }

  /** Scanning past one encoded character counts one exactly when the
      character is the star: UTF-8 never lets the pattern straddle a
      character boundary. */
  lemma CountAfterChar(c: char, rest: seq<Utf8.Byte>)
    ensures Utf8.Count(Utf8.EncodeChar(c) + rest, STAR_BYTES)
      == (if c == STAR then 1 else 0) + Utf8.Count(rest, STAR_BYTES)
  {
    var e := Utf8.EncodeChar(c);
    var bs := e + rest;
    EncodesToStar(c);
    if c == STAR {
      assert bs[..3] == STAR_BYTES;
      assert bs[3..] == rest;
    } else {
      if e[0] != 0xE2 {
        Utf8.SkipByte(bs, STAR_BYTES);
      } else {
        assert |e| == 3;
        assert bs[..3] == e;
      }
      assert bs[1..] == e[1..] + rest;
      SkipContinuations(e[1..], rest);
    }
  }

  /** `count_stars` counts the star characters of the text. */
  lemma {:induction false} CountStarsIsOccurrences(s: string)
    ensures CountStars(s) == Occurrences(s, STAR)
  {
    if |s| > 0 {
      CountAfterChar(s[0], Utf8.Encode(s[1..]));
      CountStarsIsOccurrences(s[1..]);
    }
  }

  /** `str * n`: `n` copies, none for `n <= 0`. */
  function Repeat(s: string, n: int): (r: string)
    ensures |r| == (if n > 0 then n * |s| else 0)
    decreases n
  {
    if n <= 0 then "" else s + Repeat(s, n - 1)
  }

  lemma {:induction false} RepeatGlyphStars(n: int)
    ensures Occurrences(Repeat(GLYPH, n), STAR) == (if n > 0 then n else 0)
    decreases n
  {
    if n > 0 {
      OccurrencesAppend(GLYPH, Repeat(GLYPH, n - 1), STAR);
      assert GLYPH[1..][1..] == [];
      RepeatGlyphStars(n - 1);
    }
  }

  /** `int(float(rating) / 100 * 5)` for an integer rating: a fifth of the
      percentage, truncated toward zero. */
  function Fifths(rating: int): int {
    if rating >= 0 then rating / 20 else -((-rating) / 20)
  }

  /** The number of stars a rating shows: the truncated fifths, and none
      for a negative count. */
  function StarCount(rating: int): (n: nat)
    ensures rating >= 0 ==> n * 20 <= rating < (n + 1) * 20
    ensures rating < 20 ==> n == 0
  {
    var f := Fifths(rating);
    if f > 0 then f else 0
  }

  /** On the rating scale 0..100 the stars run from 0 to 5. */
  lemma StarCountRange(rating: int)
    requires 0 <= rating <= 100
    ensures 0 <= StarCount(rating) <= 5
    ensures rating == 100 ==> StarCount(rating) == 5
    ensures StarCount(89) == 4 && StarCount(0) == 0
  {
  }

  /** `rating_in_stars`: the glyph once per star. `float()` of the rating
      raises for `None` and dates, and accepts only numeric text. */
  function RatingInStars(song: Song, today: CalDate): (r: Result<string>)
    ensures r.Ok? <==> RatingNumber(AttrOf(song, Rating, today).value).Ok?
    ensures r.Err? ==> r.error == TypeError || r.error == ValueError
    ensures r.Ok? ==> CountStars(r.value) == StarCount(RatingNumber(AttrOf(song, Rating, today).value).value)
  {
    match RatingNumber(AttrOf(song, Rating, today).value)
    case Err(e) => Err(e)
    case Ok(rating) =>
      var s := Repeat(GLYPH, Fifths(rating));
      CountStarsIsOccurrences(s);
      RepeatGlyphStars(Fifths(rating));
      Ok(s)
  }

  /** `getattr(song, attr)` for the names a song answers to with a value:
      its field names, the `date_added` property and the private
      `_date_added` read the field, and the `rating_in_stars` property
      raises what `float(rating)` raises. Any other name raises
      `AttributeError`. */
  function GetAttr(song: Song, attr: string, today: CalDate): Result<Value> {
    match FieldOf(attr)
    case Some(f) => if AttrOf(song, f, today).Some? then Ok(AttrOf(song, f, today).value) else Err(AttributeError)
    case None =>
      if attr == "_date_added" then Ok(AttrOf(song, DateAdded, today).value)
      else if attr == "rating_in_stars" then
        match RatingInStars(song, today)
        case Ok(stars) => Ok(Str(stars))
        case Err(e) => Err(e)
      else Err(AttributeError)
  }

  /** `getattr` raises `AttributeError` exactly for a name the song does
      not answer to and for an unset `name` or `location`; a field reads
      as `AttrOf` says, and `rating_in_stars` holds the rating's star
      count or raises what `float(rating)` raises. */
  lemma GetAttrMeaning(song: Song, attr: string, today: CalDate)
    ensures var r := GetAttr(song, attr, today);
      r.Err? && r.error == AttributeError <==>
        if attr == "rating_in_stars" || attr == "_date_added" then false
        else FieldOf(attr).None? || AttrOf(song, FieldOf(attr).value, today).None?
    ensures var r := GetAttr(song, attr, today);
      FieldOf(attr).Some? && r.Ok? ==> Some(r.value) == AttrOf(song, FieldOf(attr).value, today)
    ensures var r := GetAttr(song, attr, today);
      attr == "rating_in_stars" ==> (r.Ok? <==> RatingInStars(song, today).Ok?)
    ensures var r := GetAttr(song, attr, today);
      attr == "rating_in_stars" && r.Ok? ==>
        r.value.Str? && CountStars(r.value.s) == StarCount(RatingNumber(AttrOf(song, Rating, today).value).value)
  {
  }

  /** The song's star count, as `count_stars(self.rating_in_stars)`. */
  function SongStars(song: Song, today: CalDate): Result<nat> {
    match RatingInStars(song, today)
    case Err(e) => Err(e)
    case Ok(s) => Ok(CountStars(s))
  }

  // ---------------------------------------------------------------------
  // The operators

  /** `a @ b`: the same name and the same artist. Reading an unset `name`
      raises `AttributeError`. */
  function MatMul(a: Song, b: Song, today: CalDate): Result<bool> {
    match (AttrOf(a, Name, today), AttrOf(b, Name, today))
    case (Some(na), Some(nb)) => Ok(na == nb && AttrOf(a, Artist, today) == AttrOf(b, Artist, today))
    case _ => Err(AttributeError)
  }

  /** `song == condition`: a star string compares star counts, then an
      integer compares the year and a string the name. `count_stars` runs
      first and raises on anything but a string. */
  function Eq(song: Song, cond: Value, today: CalDate): Result<bool> {
    if !cond.Str? then Err(AttributeError)
    else
      var k := CountStars(cond.s);
      var starred :=
        if k == 0 then Ok(false)
        else (match SongStars(song, today) case Err(e) => Err(e) case Ok(n) => Ok(n == k));
      match starred
      case Err(e) => Err(e)
      case Ok(true) => Ok(true)
      case Ok(false) =>
        match AttrOf(song, Name, today)
        case None => Err(AttributeError)
        case Some(n) => Ok(n == cond)
  }

  /** Python's ordering of the year against an integer: only an integer
      year compares; `None`, text and dates raise `TypeError`. */
  function YearCompare(song: Song, c: int, atLeast: bool, today: CalDate): Result<bool> {
    match AttrOf(song, Year, today).value
    case Int(y) => Ok(if atLeast then y >= c else y < c)
    case _ => Err(TypeError)
  }

  /** The star half of `>=` and `<`: false without stars in the condition. */
  function StarCompare(song: Song, s: string, atLeast: bool, today: CalDate): Result<bool> {
    var k := CountStars(s);
    if k == 0 then Ok(false)
    else match SongStars(song, today)
      case Err(e) => Err(e)
      case Ok(n) => Ok(if atLeast then n >= k else n < k)
  }

  /** `song >= condition`. */
  function Ge(song: Song, cond: Value, today: CalDate): Result<bool> {
    match cond
    case Int(c) => YearCompare(song, c, true, today)
    case Str(s) => StarCompare(song, s, true, today)
    case _ => Err(AttributeError)
  }

  /** `song < condition`. */
  function Lt(song: Song, cond: Value, today: CalDate): Result<bool> {
    match cond
    case Int(c) => YearCompare(song, c, false, today)
    case Str(s) => StarCompare(song, s, false, today)
    case _ => Err(AttributeError)
  }

  // ---------------------------------------------------------------------
  // Properties of the operators

  /** `@` holds exactly when the (name, artist) pairs agree. */
  lemma MatMulMeaning(a: Song, b: Song, today: CalDate)
    requires Name in a.attrs && Name in b.attrs
    ensures MatMul(a, b, today) == Ok((AttrOf(a, Name, today), AttrOf(a, Artist, today))
                                      == (AttrOf(b, Name, today), AttrOf(b, Artist, today)))
  {
  }

  /** `@` is reflexive and symmetric, and raises exactly when a name is unset. */
  lemma MatMulReflexiveSymmetric(a: Song, b: Song, today: CalDate)
    ensures Name in a.attrs ==> MatMul(a, a, today) == Ok(true)
    ensures MatMul(a, b, today) == MatMul(b, a, today)
    ensures MatMul(a, b, today).Err? <==> Name !in a.attrs || Name !in b.attrs
  {
  }

  /** `@` looks at nothing but the name and the artist. */
  lemma MatMulIgnoresOtherFields(a: Song, a2: Song, b: Song, today: CalDate)
    requires AttrOf(a, Name, today) == AttrOf(a2, Name, today)
    requires AttrOf(a, Artist, today) == AttrOf(a2, Artist, today)
    ensures MatMul(a, b, today) == MatMul(a2, b, today)
  {
  }

  /** A well-typed song's stars are its rating's star count. */
  lemma SongStarsOfWellTyped(song: Song, today: CalDate)
    requires WellTyped(song)
    ensures SongStars(song, today) == Ok(StarCount(AttrOf(song, Rating, today).value.i))
  {
    assert Rating in song.attrs ==> TypedAs(Rating, song.attrs[Rating]);
  }

  /** Against a string with stars, `==` holds iff the song shows that many
      stars or its name is the string; without stars, iff the name is the
      string. Against anything but a string it raises. */
  lemma EqMeaning(song: Song, cond: Value, today: CalDate)
    requires WellTyped(song) && Name in song.attrs
    ensures !cond.Str? ==> Eq(song, cond, today) == Err(AttributeError)
    ensures cond.Str? && CountStars(cond.s) > 0 ==>
      Eq(song, cond, today) == Ok(StarCount(AttrOf(song, Rating, today).value.i) == CountStars(cond.s)
                                  || song.attrs[Name] == cond)
    ensures cond.Str? && CountStars(cond.s) == 0 ==> Eq(song, cond, today) == Ok(song.attrs[Name] == cond)
  {
    SongStarsOfWellTyped(song, today);
  }

  /** Against an integer, `>=` and `<` compare the year and exactly one holds. */
  lemma GeLtYear(song: Song, c: int, today: CalDate)
    requires WellTyped(song)
    ensures Ge(song, Int(c), today) == Ok(AttrOf(song, Year, today).value.i >= c)
    ensures Lt(song, Int(c), today) == Ok(AttrOf(song, Year, today).value.i < c)
  {
    assert Year in song.attrs ==> TypedAs(Year, song.attrs[Year]);
  }

  /** Against a string with k > 0 stars, `>=` and `<` compare star counts,
      so exactly one of them holds; against a string without stars both
      are false. */
  lemma GeLtStars(song: Song, s: string, today: CalDate)
    requires WellTyped(song)
    ensures CountStars(s) > 0 ==>
      Ge(song, Str(s), today) == Ok(StarCount(AttrOf(song, Rating, today).value.i) >= CountStars(s))
      && Lt(song, Str(s), today) == Ok(StarCount(AttrOf(song, Rating, today).value.i) < CountStars(s))
      && Ge(song, Str(s), today).value != Lt(song, Str(s), today).value
    ensures CountStars(s) == 0 ==> Ge(song, Str(s), today) == Ok(false) && Lt(song, Str(s), today) == Ok(false)
  {
    SongStarsOfWellTyped(song, today);
  }

  /** The glyph string of k stars holds k stars, so a song rated r equals
      the glyph string of its own star count whenever that count is
      positive. */
  lemma EqOwnStars(song: Song, today: CalDate)
    requires WellTyped(song) && Name in song.attrs
    requires StarCount(AttrOf(song, Rating, today).value.i) > 0
    ensures Eq(song, Str(Repeat(GLYPH, StarCount(AttrOf(song, Rating, today).value.i))), today) == Ok(true)
  {
    var n := StarCount(AttrOf(song, Rating, today).value.i);
    CountStarsIsOccurrences(Repeat(GLYPH, n));
    RepeatGlyphStars(n);
    EqMeaning(song, Str(Repeat(GLYPH, n)), today);
  }
}
