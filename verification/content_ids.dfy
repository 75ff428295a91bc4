/** Content identifiers: `<title>` for a movie, `<title>:<season>:<episode>` for an episode.
    The handler derives the title id and the two adjacent ids from the request id by splitting
    on `:` and converting the pieces with JavaScript's `Number`, then formats them back into
    strings with template literals. This module models that round trip, including the
    `undefined` and `NaN` that appear when the pieces are missing or not numbers. */
module ContentIds {

  // ---------------------------------------------------------------------------------------
  // Splitting on ':' (`String.prototype.split(':')`)
  // ---------------------------------------------------------------------------------------

  /** Position of the first ':' in `s`. */
  function FirstColon(s: string): (i: nat)
    requires ':' in s
    ensures i < |s| && s[i] == ':' && ':' !in s[..i]
  {
    if s[0] == ':' then 0
    else
      assert ':' in s[1..] by {
        var j :| 0 <= j < |s| && s[j] == ':';
        assert s[1..][j - 1] == ':';
      }
      var k := FirstColon(s[1..]);
      assert s[..k + 1] == [s[0]] + s[1..][..k];
      k + 1
  }

  /** The inverse of splitting: the parts glued back together with ':' between them. */
  function Join(parts: seq<string>): string
    requires |parts| >= 1
    decreases |parts|
  {
    if |parts| == 1 then parts[0] else parts[0] + ":" + Join(parts[1..])
  }

  /** `s.split(':')`: the maximal colon-free pieces of `s`, in order. */
  function Split(s: string): (parts: seq<string>)
    ensures |parts| >= 1
    ensures forall i :: 0 <= i < |parts| ==> ':' !in parts[i]
    ensures Join(parts) == s
    decreases |s|
  {
    if ':' !in s then [s]
    else
      var i := FirstColon(s);
      var rest := Split(s[i + 1..]);
      assert ([s[..i]] + rest)[1..] == rest;
      assert s == s[..i] + ":" + s[i + 1..];
      [s[..i]] + rest
  }

  /** The first colon is the only position that has a colon and no colon before it. */
  lemma FirstColonUnique(s: string, i: nat)
    requires i < |s| && s[i] == ':' && ':' !in s[..i]
    ensures FirstColon(s) == i
  {
  }

  /** Splitting undoes joining whenever the parts are colon-free. */
  lemma {:induction false} SplitJoin(parts: seq<string>)
    requires |parts| >= 1
    requires forall i :: 0 <= i < |parts| ==> ':' !in parts[i]
    ensures Split(Join(parts)) == parts
    decreases |parts|
  {
    if |parts| > 1 {
      var s := Join(parts);
      var p := parts[0];
      assert s == p + ":" + Join(parts[1..]);
      assert s[..|p|] == p;
      FirstColonUnique(s, |p|);
      assert s[|p| + 1..] == Join(parts[1..]);
      SplitJoin(parts[1..]);
      assert parts == [p] + parts[1..];
    }
  }

  // ---------------------------------------------------------------------------------------
  // Title id (`id.split(':')[0]`)
  // ---------------------------------------------------------------------------------------

  /** The title id: the text before the first ':', or the whole id when it has none. */
  function TitleId(id: string): (t: string)
    ensures ':' !in t
    ensures t <= id
    ensures ':' !in id ==> t == id
    ensures ':' in id ==> |t| < |id| && id[|t|] == ':'
  {
    var parts := Split(id);
    assert |parts| > 1 ==> id == parts[0] + ":" + Join(parts[1..]);
    parts[0]
  }

  /** Whatever follows the first colon, the title id is what precedes it. */
  lemma TitleIdOf(t: string, rest: string)
    requires ':' !in t
    ensures TitleId(t + ":" + rest) == t
  {
    var s := t + ":" + rest;
    assert s[..|t|] == t;
    FirstColonUnique(s, |t|);
  }

  // ---------------------------------------------------------------------------------------
  // JavaScript numbers as the handler sees them
  // ---------------------------------------------------------------------------------------

  /** What `Number(piece)` gives, or `undefined` for a piece that is not there. */
  datatype JsValue = Undefined | NaN | Inf(negative: bool) | Num(n: int)

  predicate IsDigit(c: char) { '0' <= c <= '9' }

  predicate AllDigits(s: string) { forall i :: 0 <= i < |s| ==> IsDigit(s[i]) }

  function DigitValue(c: char): nat
    requires IsDigit(c)
  {
    (c as int) - ('0' as int)
  }

  function DigitChar(d: nat): (c: char)
    requires d < 10
    ensures IsDigit(c) && DigitValue(c) == d
  {
    (('0' as int) + d) as char
  }

  /** The value of a string of decimal digits. */
  function DecimalValue(s: string): nat
    requires AllDigits(s)
    decreases |s|
  {
    if s == [] then 0 else 10 * DecimalValue(s[..|s| - 1]) + DigitValue(s[|s| - 1])
  }

  /** The decimal digits of `n`, most significant first, without leading zeros. */
  function Decimal(n: nat): (s: string)
    ensures |s| >= 1 && AllDigits(s)
    decreases n
  {
    if n < 10 then [DigitChar(n)] else Decimal(n / 10) + [DigitChar(n % 10)]
  }

  lemma {:induction false} DecimalRoundTrip(n: nat)
    ensures DecimalValue(Decimal(n)) == n
    decreases n
  {
    if n >= 10 {
      var s := Decimal(n);
      assert s[..|s| - 1] == Decimal(n / 10);
      assert s[|s| - 1] == DigitChar(n % 10);
      DecimalRoundTrip(n / 10);
    }
  }

  /** `Number(s)` for the strings an id piece can be: "" is 0, an optionally signed
      "Infinity" is an infinity, an optionally signed run of decimal digits is that integer,
      anything else is NaN. */
  function ToNumber(s: string): JsValue
  {
    if s == "" then Num(0)
    else if s == "Infinity" || s == "+Infinity" then Inf(false)
    else if s == "-Infinity" then Inf(true)
    else if (s[0] == '-' || s[0] == '+') && |s| > 1 && AllDigits(s[1..]) then
      var magnitude: int := DecimalValue(s[1..]);
      Num(if s[0] == '-' then -magnitude else magnitude)
    else if AllDigits(s) then Num(DecimalValue(s))
    else NaN
  }

  /** How a template literal prints an integer. */
  function IntToString(n: int): (s: string)
    ensures ':' !in s
  {
    var d := if n < 0 then "-" + Decimal(-n) else Decimal(n);
    assert forall i :: 0 <= i < |d| ==> d[i] == '-' || IsDigit(d[i]);
    d
  }

  /** Printing an integer and reading it back with `Number` gives the integer. */
  lemma NumberRoundTrip(n: int)
    ensures ToNumber(IntToString(n)) == Num(n)
  {
    var s := IntToString(n);
    if n < 0 {
      DecimalRoundTrip(-n);
      assert s[1..] == Decimal(-n);
      assert IsDigit(s[1]) && !IsDigit("-Infinity"[1]);
      assert s != "-Infinity" && s[0] == '-';
    } else {
      DecimalRoundTrip(n);
      assert IsDigit(s[0]);
    }
  }

  /** How a template literal prints a value: `undefined`, `NaN`, `Infinity`, `-Infinity` or
      the integer. */
  function Show(v: JsValue): string
  {
    match v
    case Undefined => "undefined"
    case NaN => "NaN"
    case Inf(negative) => if negative then "-Infinity" else "Infinity"
    case Num(n) => IntToString(n)
  }

  /** `v + 1`: `undefined + 1` and `NaN + 1` are both NaN, an infinity stays as it is. */
  function PlusOne(v: JsValue): JsValue
  {
    match v
    case Num(n) => Num(n + 1)
    case Inf(negative) => Inf(negative)
    case _ => NaN
  }

  /** The piece at `k` after `split(':').slice(1).map(Number)` and destructuring. */
  function Piece(parts: seq<string>, k: nat): JsValue
  {
    if k < |parts| then ToNumber(parts[k]) else Undefined
  }

  // ---------------------------------------------------------------------------------------
  // Adjacent ids
  // ---------------------------------------------------------------------------------------

  /** `${imdbId}:${season}:${episode + 1}` */
  function NextEpisodeId(id: string): (r: string)
    ensures TitleId(id) + ":" <= r
  {
    var parts := Split(id);
    parts[0] + ":" + Show(Piece(parts, 1)) + ":" + Show(PlusOne(Piece(parts, 2)))
  }

  /** `${imdbId}:${season + 1}:1` */
  function NextSeasonId(id: string): (r: string)
    ensures TitleId(id) + ":" <= r
  {
    var parts := Split(id);
    parts[0] + ":" + Show(PlusOne(Piece(parts, 1))) + ":1"
  }

  /** The id of episode `e` of season `s` of title `t`. */
  function EpisodeId(t: string, s: int, e: int): string
  {
    t + ":" + IntToString(s) + ":" + IntToString(e)
  }

  /** Both adjacent ids belong to the requested id's title, so they share its request-log key
      and fall under the same substring eviction. */
  lemma AdjacentIdsShareTitle(id: string)
    ensures TitleId(NextEpisodeId(id)) == TitleId(id)
    ensures TitleId(NextSeasonId(id)) == TitleId(id)
  {
    var parts := Split(id);
    var t := parts[0];
    var ep := Show(Piece(parts, 1)) + ":" + Show(PlusOne(Piece(parts, 2)));
    var sn := Show(PlusOne(Piece(parts, 1))) + ":1";
    assert NextEpisodeId(id) == t + ":" + ep;
    assert NextSeasonId(id) == t + ":" + sn;
    TitleIdOf(t, ep);
    TitleIdOf(t, sn);
  }

  /** Three colon-free pieces joined with ':' split back into those pieces. */
  lemma SplitThree(a: string, b: string, c: string)
    requires ':' !in a && ':' !in b && ':' !in c
    ensures Split(a + ":" + b + ":" + c) == [a, b, c]
  {
    var parts := [a, b, c];
    assert Join(parts) == a + ":" + b + ":" + c by {
      assert parts[1..] == [b, c];
      assert parts[1..][1..] == [c];
      assert Join(parts[1..]) == b + ":" + c;
    }
    SplitJoin(parts);
  }

  /** An episode id splits into its three pieces. */
  lemma SplitEpisodeId(t: string, s: int, e: int)
    requires ':' !in t
    ensures Split(EpisodeId(t, s, e)) == [t, IntToString(s), IntToString(e)]
  {
    SplitThree(t, IntToString(s), IntToString(e));
  }

  /** The adjacent ids of an id with three pieces, read off the pieces. */
  lemma AdjacentOfPieces(id: string, t: string, a: string, b: string)
    requires Split(id) == [t, a, b]
    ensures NextEpisodeId(id) == t + ":" + Show(ToNumber(a)) + ":" + Show(PlusOne(ToNumber(b)))
    ensures NextSeasonId(id) == t + ":" + Show(PlusOne(ToNumber(a))) + ":1"
  {
  }

  /** For a well-formed episode id, the next episode is episode e+1 of the same season and
      the next season starts at its episode 1. */
  lemma AdjacentOfEpisode(t: string, s: int, e: int)
    requires ':' !in t
    ensures NextEpisodeId(EpisodeId(t, s, e)) == EpisodeId(t, s, e + 1)
    ensures NextSeasonId(EpisodeId(t, s, e)) == EpisodeId(t, s + 1, 1)
  {
    var season, episode := IntToString(s), IntToString(e);
    SplitEpisodeId(t, s, e);
    AdjacentOfPieces(EpisodeId(t, s, e), t, season, episode);
    NumberRoundTrip(s);
    NumberRoundTrip(e);
    assert Show(ToNumber(season)) == season;
    assert Show(PlusOne(ToNumber(season))) == IntToString(s + 1);
    assert Show(PlusOne(ToNumber(episode))) == IntToString(e + 1);
    assert IntToString(1) == "1";
  }

  /** A movie id has no season or episode, so the handler builds the literal strings
      `<id>:undefined:NaN` and `<id>:NaN:1` as its adjacent ids. */
  lemma AdjacentOfMovie(id: string)
    requires ':' !in id
    ensures NextEpisodeId(id) == id + ":undefined:NaN"
    ensures NextSeasonId(id) == id + ":NaN:1"
  {
    assert Split(id) == [id];
  }

  /** An id with a season and no episode gets `NaN` as the next episode number. */
  lemma AdjacentOfSeasonOnly(t: string, s: int)
    requires ':' !in t
    ensures NextEpisodeId(t + ":" + IntToString(s)) == t + ":" + IntToString(s) + ":NaN"
    ensures NextSeasonId(t + ":" + IntToString(s)) == t + ":" + IntToString(s + 1) + ":1"
  {
    var parts := [t, IntToString(s)];
    assert Join(parts) == t + ":" + IntToString(s);
    SplitJoin(parts);
    NumberRoundTrip(s);
  }

  /** A season written as an infinity ("Infinity", "+Infinity" or "-Infinity") is printed
      back as `Infinity` or `-Infinity` in both adjacent ids, since an infinity plus one is
      itself; only the episode number moves on. */
  lemma AdjacentOfInfiniteSeason(t: string, w: string, e: int)
    requires ':' !in t
    requires ToNumber(w).Inf?
    ensures Show(ToNumber(w)) == (if w == "-Infinity" then "-Infinity" else "Infinity")
    ensures NextEpisodeId(t + ":" + w + ":" + IntToString(e)) == t + ":" + Show(ToNumber(w)) + ":" + IntToString(e + 1)
    ensures NextSeasonId(t + ":" + w + ":" + IntToString(e)) == t + ":" + Show(ToNumber(w)) + ":1"
  {
    SplitThree(t, w, IntToString(e));
    AdjacentOfPieces(t + ":" + w + ":" + IntToString(e), t, w, IntToString(e));
    NumberRoundTrip(e);
    assert IntToString(1) == "1";
  }
}
