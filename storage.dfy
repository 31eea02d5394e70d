// Browser persistence for cards, short links, the e-mail address, the gift
// flag and generated QR codes (src/lib/storage.ts), including the
// key-shortening text compressor used for large card lists.
//
// localStorage is the `BrowserStorage` class: keys whose raw text matters
// (cards, e-mail, gift flag) are entries of the `items` map; keys the code
// only ever JSON-parses are typed slots. `JSON.stringify`/`JSON.parse` on the
// cards key are a codec passed in by the caller, the clock is `now`, and
// whether each `setItem` throws is the `setFails` input.

module Storage {
  import opened Common
  import opened Cards

  const CardsKey := "ad_mvp.cards.v1"
  const ShortsKey := "ad_mvp.shortlinks.v1"
  const EmailKey := "ad_mvp.email.v1"
  const GiftKey := "ad_mvp.gift_claimed.v1"
  const QrCodesKey := "ad_mvp.qr_codes.v1"

  const KeptCards := 20
  const KeptCardsOnQuota := 10
  const CompressThreshold := 100000

  const JpegPrefix := "data:image/jpeg;base64,"
  const ImagePrefix := "data:image/"
  const Base64Marker := ";base64,"

  // ---------------------------------------------------------------------
  // Compression

  const Quote := '"'

  /** A JSON key as it appears in serialised text: its name between double quotes. */
  function Quoted(name: string): (r: string)
    ensures |r| == |name| + 2
  {
    [Quote] + name + [Quote]
  }

  /**
   * The match of `data:image\/[^;]+;base64,` at the start of `s`, as its
   * length: the media type runs up to the first `;`, must not be empty, and
   * `;base64,` must follow.
   */
  function DataUrlMatch(s: string): (r: Option<nat>)
    ensures r.Some? ==> (|ImagePrefix| + |Base64Marker| < r.value <= |s|
      && StartsWith(s, ImagePrefix) && s[r.value - |Base64Marker|..r.value] == Base64Marker
      && ';' !in s[|ImagePrefix|..r.value - |Base64Marker|])
  {
    if !StartsWith(s, ImagePrefix) then None
    else match IndexOfChar(s[|ImagePrefix|..], ';')
      case None => None
      case Some(j) =>
        var rest := s[|ImagePrefix| + j..];
        if j >= 1 && StartsWith(rest, Base64Marker) then
          assert s[|ImagePrefix|..|ImagePrefix| + j] == s[|ImagePrefix|..][..j];
          Some(|ImagePrefix| + j + |Base64Marker|)
        else None
  }

  /** A JPEG base64 prefix is matched exactly. */
  lemma JpegMatch(s: string)
    requires StartsWith(s, JpegPrefix)
    ensures DataUrlMatch(s) == Some(|JpegPrefix|)
  {
    PrefixSlice(s, JpegPrefix, 0, 11);
    assert JpegPrefix[0..11] == ImagePrefix;
    assert s[..|ImagePrefix|] == s[0..11];
    var t := s[|ImagePrefix|..];
    assert IndexOfChar(t, ';') == Some(4) by {
      PrefixSlice(s, JpegPrefix, 11, 16);
      assert JpegPrefix[11..16] == "jpeg;";
      assert t[..5] == s[11..16];
      assert t[0] == 'j' && t[1] == 'p' && t[2] == 'e' && t[3] == 'g' && t[4] == ';' by {
        assert forall k :: 0 <= k < 5 ==> t[k] == t[..5][k];
      }
      assert IndexOfChar(t[4..], ';') == Some(0);
      assert t[3..][1..] == t[4..] && t[2..][1..] == t[3..] && t[1..][1..] == t[2..];
      assert IndexOfChar(t[3..], ';') == Some(1);
      assert IndexOfChar(t[2..], ';') == Some(2);
      assert IndexOfChar(t[1..], ';') == Some(3);
    }
    assert StartsWith(s[|ImagePrefix| + 4..], Base64Marker) by {
      PrefixSlice(s, JpegPrefix, 15, 23);
      assert JpegPrefix[15..23] == Base64Marker;
      assert s[15..][..8] == s[15..23];
    }
  }

  /** A text starting with `p` agrees with `p` on every slice of `p`. */
  lemma PrefixSlice(s: string, p: string, i: int, j: int)
    requires StartsWith(s, p) && 0 <= i <= j <= |p|
    ensures s[i..j] == p[i..j]
  {
    assert forall k :: i <= k < j ==> s[k] == s[..|p|][k];
  }

  /** `.replace(/data:image\/[^;]+;base64,/g, '~')`. */
  function ReplaceDataUrls(s: string): string
    decreases |s|
  {
    if |s| == 0 then ""
    else match DataUrlMatch(s)
      case Some(n) => "~" + ReplaceDataUrls(s[n..])
      case None => [s[0]] + ReplaceDataUrls(s[1..])
  }

  /** The six JSON keys the compressor shortens, and the one-letter name each becomes. */
  const LongKeys: seq<string> := ["imageDataUrl", "description", "keywords", "language", "createdAt", "title"]
  const ShortKeys: seq<string> := ["i", "d", "k", "l", "c", "t"]

  /** Replaces, in table order, every quoted key `from[k]` by the quoted key `to[k]`. */
  function ReplaceKeys(s: string, from: seq<string>, to: seq<string>): string
    requires |from| == |to|
    decreases |from|
  {
    if |from| == 0 then s else ReplaceKeys(ReplaceAll(s, Quoted(from[0]), Quoted(to[0])), from[1..], to[1..])
  }

  /** The text mentions none of the quoted keys. */
  predicate MentionsNone(s: string, names: seq<string>) {
    forall k :: 0 <= k < |names| ==> !Contains(s, Quoted(names[k]))
  }

  /** Every `data:image/` in the text opens a `data:image/jpeg;base64,` prefix. */
  predicate OnlyJpegImages(s: string)
    decreases |s|
  {
    |s| == 0 || ((StartsWith(s, ImagePrefix) ==> StartsWith(s, JpegPrefix)) && OnlyJpegImages(s[1..]))
  }

  /** `compressData`: shorten the keys, then turn every base64 image prefix into `~`; the text never grows. */
  function Compress(data: string): (r: string)
    ensures |r| <= |data|
  {
    var keyed := ReplaceKeys(data, LongKeys, ShortKeys);
    KeyTables();
    ReplaceKeysShortens(data, LongKeys, ShortKeys);
    ReplaceDataUrlsShrinks(keyed);
    ReplaceDataUrls(keyed)
  }

  /**
   * `decompressData`: every `~` becomes the JPEG prefix, then the short keys
   * are expanded. Text holding neither is left as it is.
   */
  function Decompress(compressed: string): (r: string)
    ensures '~' !in compressed && MentionsNone(compressed, ShortKeys) ==> r == compressed
  {
    var expanded := ReplaceAll(compressed, "~", JpegPrefix);
    ReplaceAllWithoutChar(compressed, '~', JpegPrefix);
    ReplaceKeysAbsent(expanded, ShortKeys, LongKeys);
    ReplaceKeys(expanded, ShortKeys, LongKeys)
  }

  /**
   * The round trip: a text without `~`, without any of the short keys, and
   * whose only base64 images are JPEG ones, decompresses back to itself.
   */
  lemma DecompressCompress(s: string)
    requires '~' !in s
    requires MentionsNone(s, ShortKeys)
    requires OnlyJpegImages(s)
    ensures Decompress(Compress(s)) == s
  {
    var f := Split(s, Quote);
    var g := FieldKeys(f, LongKeys, ShortKeys);
    var t := Join(g, Quote);
    assert Compress(s) == ReplaceDataUrls(t) by {
      KeyTables();
      JoinSplit(s, Quote);
      ReplaceKeysFields(f, LongKeys, ShortKeys);
    }
    assert ReplaceAll(ReplaceDataUrls(t), "~", JpegPrefix) == t by {
      ShortenedText(s, f, g);
      DataRoundTrip(t);
    }
    ExpandShortened(s, f, g);
  }

  /** Expanding the short keys of the shortened text gives the text back. */
  lemma ExpandShortened(s: string, f: seq<string>, g: seq<string>)
    requires f == Split(s, Quote) && g == FieldKeys(f, LongKeys, ShortKeys)
    requires '~' !in s && OnlyJpegImages(s) && MentionsNone(s, ShortKeys)
    ensures ReplaceKeys(Join(g, Quote), ShortKeys, LongKeys) == s
  {
    KeyTables();
    ShortenedText(s, f, g);
    ReplaceKeysFields(g, ShortKeys, LongKeys);
    ShortFieldsAbsent(s, f);
    FieldKeysRoundTrip(f, LongKeys, ShortKeys);
    JoinSplit(s, Quote);
  }

  /** No field between quotes of a text without the short keys is a short name. */
  lemma ShortFieldsAbsent(s: string, f: seq<string>)
    requires f == Split(s, Quote) && MentionsNone(s, ShortKeys)
    ensures forall i, k :: Interior(f, i) && 0 <= k < |ShortKeys| ==> f[i] != ShortKeys[k]
  {
    KeyTables();
    JoinSplit(s, Quote);
    forall i, k | Interior(f, i) && 0 <= k < |ShortKeys| ensures f[i] != ShortKeys[k] {
      NoKeyNoField(f, ShortKeys[k], i);
    }
  }

  /** The text with shortened keys keeps quote-free fields, has no `~`, and only JPEG images. */
  lemma ShortenedText(s: string, f: seq<string>, g: seq<string>)
    requires f == Split(s, Quote) && g == FieldKeys(f, LongKeys, ShortKeys)
    requires '~' !in s && OnlyJpegImages(s)
    ensures |g| >= 1 && forall k :: 0 <= k < |g| ==> Quote !in g[k]
    ensures '~' !in Join(g, Quote) && OnlyJpegImages(Join(g, Quote))
  {
    JoinSplit(s, Quote);
    CharInJoin(f, Quote, '~');
    OnlyJpegJoin(f);
    ShortenedFields(f, g);
    CharInJoin(g, Quote, '~');
    OnlyJpegJoin(g);
  }

  /** Shortening keeps every field free of quotes and `~`, and holding only JPEG images. */
  lemma ShortenedFields(f: seq<string>, g: seq<string>)
    requires |g| == |f| && forall k :: 0 <= k < |f| ==> g[k] == f[k] || g[k] in ShortKeys
    requires forall k :: 0 <= k < |f| ==> Quote !in f[k] && '~' !in f[k] && OnlyJpegImages(f[k])
    ensures forall k :: 0 <= k < |g| ==> Quote !in g[k] && '~' !in g[k] && OnlyJpegImages(g[k])
  {
    forall k | 0 <= k < |g| ensures Quote !in g[k] && '~' !in g[k] && OnlyJpegImages(g[k]) {
      ShortenedField(f[k], g[k]);
    }
  }

  /** One field of `ShortenedFields`: it is the original field or a short key. */
  lemma ShortenedField(x: string, y: string)
    requires y == x || y in ShortKeys
    requires Quote !in x && '~' !in x && OnlyJpegImages(x)
    ensures Quote !in y && '~' !in y && OnlyJpegImages(y)
  {
    if y != x {
      ShortKeyText(y);
      ShortTextNoImage(y);
    }
  }

  /** A short key is one letter, neither a quote nor `~`. */
  lemma ShortKeyText(x: string)
    requires x in ShortKeys
    ensures |x| == 1 && Quote !in x && '~' !in x
  {
    var j :| 0 <= j < |ShortKeys| && ShortKeys[j] == x;
    assert x == ["idklct"[j]];
  }

  /** A pair of key tables: as many names on each side, none holding a quote, all of them distinct. */
  predicate KeyTable(from: seq<string>, to: seq<string>) {
    && |from| == |to|
    && (forall k :: 0 <= k < |from| ==> Quote !in from[k] && Quote !in to[k])
    && (forall i, j :: 0 <= i < |from| && 0 <= j < |from| ==> from[i] != to[j])
    && (forall i, j :: 0 <= i < j < |from| ==> from[i] != from[j] && to[i] != to[j])
  }

  /** Dropping the first pair of names leaves a pair of key tables. */
  lemma KeyTableTail(from: seq<string>, to: seq<string>)
    requires KeyTable(from, to) && |from| > 0
    ensures KeyTable(from[1..], to[1..])
  {
    assert forall k :: 0 <= k < |from| - 1 ==> from[1..][k] == from[k + 1] && to[1..][k] == to[k + 1];
  }

  /** The compressor's tables: all twelve names distinct, each short name one letter. */
  lemma KeyTables()
    ensures KeyTable(LongKeys, ShortKeys) && KeyTable(ShortKeys, LongKeys)
    ensures |ShortKeys| == 6 && forall k :: 0 <= k < 6 ==> '~' !in ShortKeys[k] && |ShortKeys[k]| == 1 < |LongKeys[k]|
  {
    var letters := "idklct";
    forall k | 0 <= k < 6
      ensures ShortKeys[k] == [letters[k]] && |LongKeys[k]| > 1 && LongKeys[k][0] == letters[k]
      ensures Quote !in LongKeys[k] && Quote !in ShortKeys[k] && '~' !in ShortKeys[k]
    {
    }
    assert forall i, j :: 0 <= i < j < 6 ==> letters[i] != letters[j];
  }

  /** Compression never lengthens the text. */
  lemma {:induction false} ReplaceDataUrlsShrinks(s: string)
    ensures |ReplaceDataUrls(s)| <= |s|
    decreases |s|
  {
    if |s| > 0 {
      match DataUrlMatch(s)
      case Some(n) => ReplaceDataUrlsShrinks(s[n..]);
      case None => ReplaceDataUrlsShrinks(s[1..]);
    }
  }

  /** Shortening every key never lengthens the text. */
  lemma {:induction false} ReplaceKeysShortens(s: string, from: seq<string>, to: seq<string>)
    requires |from| == |to|
    requires forall k :: 0 <= k < |from| ==> |to[k]| <= |from[k]|
    ensures |ReplaceKeys(s, from, to)| <= |s|
    decreases |from|
  {
    if |from| > 0 {
      ReplaceAllShortens(s, Quoted(from[0]), Quoted(to[0]));
      ReplaceKeysShortens(ReplaceAll(s, Quoted(from[0]), Quoted(to[0])), from[1..], to[1..]);
    }
  }

  /** Text mentioning none of the keys passes through the replacements unchanged. */
  lemma {:induction false} ReplaceKeysAbsent(s: string, from: seq<string>, to: seq<string>)
    requires |from| == |to|
    ensures MentionsNone(s, from) ==> ReplaceKeys(s, from, to) == s
    decreases |from|
  {
    if |from| > 0 && MentionsNone(s, from) {
      assert !Contains(s, Quoted(from[0]));
      ReplaceAllAbsent(s, Quoted(from[0]), Quoted(to[0]));
      assert MentionsNone(s, from[1..]) by {
        forall k | 0 <= k < |from| - 1 ensures !Contains(s, Quoted(from[1..][k])) {
          assert from[1..][k] == from[k + 1];
        }
      }
      ReplaceKeysAbsent(s, from[1..], to[1..]);
    }
  }

  /** Replacing a character the text does not hold changes nothing. */
  lemma ReplaceAllWithoutChar(s: string, c: char, rep: string)
    ensures c !in s ==> ReplaceAll(s, [c], rep) == s
  {
    forall i | OccursAt(s, [c], i) ensures c in s {
      assert s[i] == s[i..i + 1][0];
    }
    if c !in s {
      ReplaceAllAbsent(s, [c], rep);
    }
  }

  // ---------------------------------------------------------------------
  // Compression, field by field. A text split on `"` is a list of fields;
  // a quoted key is a field between two quotes, so each replacement of one
  // quoted key by another rewrites whole fields.

  /** Field `i` lies between two quotes. */
  predicate Interior(f: seq<string>, i: int) {
    1 <= i < |f| - 1
  }

  /**
   * Which fields replace-all rewrites when it looks for the quoted key `w`:
   * scanning from the start, each field equal to `w` between two quotes,
   * except one whose opening quote closed the field rewritten just before.
   */
  function Marks(f: seq<string>, w: string): (m: seq<bool>)
    ensures |m| == |f|
    ensures forall i :: 0 <= i < |f| && m[i] ==> Interior(f, i) && f[i] == w
    ensures forall i :: 0 <= i < |f| - 1 && m[i] ==> !m[i + 1]
    decreases |f|
  {
    if |f| <= 2 then seq(|f|, _ => false)
    else if f[1] == w then
      var rest := Marks(f[2..], w);
      assert forall i :: 2 <= i < |f| ==> ([false, true] + rest)[i] == rest[i - 2];
      [false, true] + rest
    else
      var rest := Marks(f[1..], w);
      assert forall i :: 1 <= i < |f| ==> ([false] + rest)[i] == rest[i - 1];
      [false] + rest
  }

  /** Replace-all of the quoted key `w` by the quoted key `v`, on the fields. */
  function FieldReplace(f: seq<string>, w: string, v: string): (r: seq<string>)
    ensures |r| == |f|
    ensures forall i :: 0 <= i < |f| ==> r[i] == f[i] || r[i] == v
  {
    var m := Marks(f, w);
    seq(|f|, i requires 0 <= i < |f| => if m[i] then v else f[i])
  }

  /** `ReplaceKeys` on the fields. */
  function FieldKeys(f: seq<string>, from: seq<string>, to: seq<string>): (r: seq<string>)
    requires |from| == |to|
    ensures |r| == |f|
    ensures forall i :: 0 <= i < |f| ==> r[i] == f[i] || r[i] in to
    decreases |from|
  {
    if |from| == 0 then f
    else
      var r := FieldKeys(FieldReplace(f, from[0], to[0]), from[1..], to[1..]);
      assert forall x :: x in to[1..] ==> x in to;
      r
  }

  /** The marks depend only on which fields between quotes hold the key. */
  lemma {:induction false} MarksFollowHits(f: seq<string>, w: string, g: seq<string>, u: string)
    requires |f| == |g|
    requires forall i :: Interior(f, i) ==> (f[i] == w <==> g[i] == u)
    ensures Marks(f, w) == Marks(g, u)
    decreases |f|
  {
    if |f| > 2 {
      assert Interior(f, 1);
      if f[1] == w {
        assert forall i :: Interior(f[2..], i) ==> Interior(f, i + 2) && f[2..][i] == f[i + 2] && g[2..][i] == g[i + 2];
        MarksFollowHits(f[2..], w, g[2..], u);
      } else {
        assert forall i :: Interior(f[1..], i) ==> Interior(f, i + 1) && f[1..][i] == f[i + 1] && g[1..][i] == g[i + 1];
        MarksFollowHits(f[1..], w, g[1..], u);
      }
    }
  }

  /** When no two neighbouring fields hold the key, every field between quotes that holds it is marked. */
  lemma {:induction false} MarksOfApart(f: seq<string>, w: string)
    requires forall i :: Interior(f, i) && Interior(f, i + 1) ==> !(f[i] == w && f[i + 1] == w)
    ensures forall i :: 0 <= i < |f| ==> (Marks(f, w)[i] <==> Interior(f, i) && f[i] == w)
    decreases |f|
  {
    if |f| > 2 {
      if f[1] == w {
        var rest := f[2..];
        assert forall i :: Interior(rest, i) && Interior(rest, i + 1) ==> Interior(f, i + 2) && Interior(f, i + 3) && rest[i] == f[i + 2] && rest[i + 1] == f[i + 3];
        MarksOfApart(rest, w);
        assert Interior(f, 1);
        MarksApartAfterHit(f, w);
      } else {
        var rest := f[1..];
        assert forall i :: Interior(rest, i) && Interior(rest, i + 1) ==> Interior(f, i + 1) && Interior(f, i + 2) && rest[i] == f[i + 1] && rest[i + 1] == f[i + 2];
        MarksOfApart(rest, w);
        MarksApartAfterMiss(f, w);
      }
    }
  }

  /** The step of `MarksOfApart` when the first field between quotes holds the key. */
  lemma MarksApartAfterHit(f: seq<string>, w: string)
    requires |f| > 2 && f[1] == w
    requires Interior(f, 2) ==> f[2] != w
    requires forall i :: 0 <= i < |f| - 2 ==> (Marks(f[2..], w)[i] <==> Interior(f[2..], i) && f[2..][i] == w)
    ensures forall i :: 0 <= i < |f| ==> (Marks(f, w)[i] <==> Interior(f, i) && f[i] == w)
  {
    var m := Marks(f, w);
    var rest := f[2..];
    assert m == [false, true] + Marks(rest, w);
    forall i | 0 <= i < |f| ensures m[i] <==> Interior(f, i) && f[i] == w {
      if i >= 3 {
        assert m[i] == Marks(rest, w)[i - 2] && rest[i - 2] == f[i];
      }
    }
  }

  /** The step of `MarksOfApart` when the first field between quotes does not hold the key. */
  lemma MarksApartAfterMiss(f: seq<string>, w: string)
    requires |f| > 2 && f[1] != w
    requires forall i :: 0 <= i < |f| - 1 ==> (Marks(f[1..], w)[i] <==> Interior(f[1..], i) && f[1..][i] == w)
    ensures forall i :: 0 <= i < |f| ==> (Marks(f, w)[i] <==> Interior(f, i) && f[i] == w)
  {
    var m := Marks(f, w);
    var rest := f[1..];
    assert m == [false] + Marks(rest, w);
    forall i | 0 <= i < |f| ensures m[i] <==> Interior(f, i) && f[i] == w {
      if i >= 2 {
        assert m[i] == Marks(rest, w)[i - 1] && rest[i - 1] == f[i];
      }
    }
  }

  /** A field between quotes that holds the key gets some field marked. */
  lemma {:induction false} MarksSomeField(f: seq<string>, w: string, i: int)
    ensures Interior(f, i) && f[i] == w ==> true in Marks(f, w)
    decreases |f|
  {
    if Interior(f, i) && f[i] == w {
      if f[1] == w {
        assert Marks(f, w)[1];
      } else {
        assert Interior(f[1..], i - 1) && f[1..][i - 1] == w;
        MarksSomeField(f[1..], w, i - 1);
        assert Marks(f, w) == [false] + Marks(f[1..], w);
      }
    }
  }

  /** Replacements of different keys, where neither produces what the other looks for, commute. */
  lemma FieldReplaceCommute(g: seq<string>, a: string, b: string, c: string, d: string)
    requires a != c && a != d && b != c
    ensures FieldReplace(FieldReplace(g, a, b), c, d) == FieldReplace(FieldReplace(g, c, d), a, b)
  {
    var ma := Marks(g, a);
    var mc := Marks(g, c);
    var g1 := FieldReplace(g, a, b);
    var g2 := FieldReplace(g, c, d);
    MarksFollowHits(g1, c, g, c);
    MarksFollowHits(g2, a, g, a);
    var l := FieldReplace(g1, c, d);
    var r := FieldReplace(g2, a, b);
    forall i | 0 <= i < |g| ensures l[i] == r[i] {
      assert !(ma[i] && mc[i]);
    }
  }

  /** Expanding the short key right after shortening the long one gives the fields back. */
  lemma FieldReplaceUndo(f: seq<string>, a: string, b: string)
    requires a != b
    requires forall i :: Interior(f, i) ==> f[i] != b
    ensures FieldReplace(FieldReplace(f, a, b), b, a) == f
  {
    var m := Marks(f, a);
    var g := FieldReplace(f, a, b);
    assert forall i :: Interior(g, i) ==> (g[i] == b <==> m[i]);
    MarksOfApart(g, b);
    assert Marks(g, b) == m;
    var r := FieldReplace(g, b, a);
    forall i | 0 <= i < |f| ensures r[i] == f[i] {
    }
  }

  /** One replacement commutes with a whole table of replacements it does not interfere with. */
  lemma {:induction false} FieldKeysCommute(g: seq<string>, from: seq<string>, to: seq<string>, c: string, d: string)
    requires |from| == |to|
    requires forall k :: 0 <= k < |from| ==> from[k] != c && from[k] != d && to[k] != c
    ensures FieldReplace(FieldKeys(g, from, to), c, d) == FieldKeys(FieldReplace(g, c, d), from, to)
    decreases |from|
  {
    if |from| > 0 {
      var h := FieldReplace(g, from[0], to[0]);
      FieldKeysCommute(h, from[1..], to[1..], c, d);
      FieldReplaceCommute(g, from[0], to[0], c, d);
    }
  }

  /**
   * Expanding with the tables swapped undoes shortening, field by field,
   * when all names are distinct and no field between quotes holds a short name.
   */
  lemma {:induction false} FieldKeysRoundTrip(f: seq<string>, from: seq<string>, to: seq<string>)
    requires KeyTable(from, to)
    requires forall i, k :: Interior(f, i) && 0 <= k < |to| ==> f[i] != to[k]
    ensures FieldKeys(FieldKeys(f, from, to), to, from) == f
    decreases |from|
  {
    if |from| > 0 {
      var h := FieldReplace(f, from[0], to[0]);
      FieldKeysCommute(h, from[1..], to[1..], to[0], from[0]);
      FieldReplaceUndo(f, from[0], to[0]);
      KeyTableTail(from, to);
      FieldKeysRoundTrip(f, from[1..], to[1..]);
    }
  }

  /** Replace-all of a quoted key works field by field. */
  lemma {:induction false} ReplaceAllFields(f: seq<string>, w: string, v: string)
    requires |f| >= 1 && forall k :: 0 <= k < |f| ==> Quote !in f[k]
    requires Quote !in w && Quote !in v
    ensures ReplaceAll(Join(f, Quote), Quoted(w), Quoted(v)) == Join(FieldReplace(f, w, v), Quote)
    decreases |f|
  {
    var pat, rep := Quoted(w), Quoted(v);
    if |f| == 1 {
      ReplaceAllSkips(f[0], "", pat, rep);
      assert f[0] + "" == f[0];
      assert FieldReplace(f, w, v) == f;
    } else {
      var tail := Join(f[1..], Quote);
      assert Join(f, Quote) == f[0] + ([Quote] + tail) by {
        JoinCons(f[0], f[1..], Quote);
        assert [f[0]] + f[1..] == f;
        AppendAssoc(f[0], [Quote], tail);
      }
      ReplaceAllSkips(f[0], [Quote] + tail, pat, rep);
      if |f| >= 3 && f[1] == w {
        ReplaceAllFieldsAtKey(f, w, v);
      } else {
        ReplaceAllFieldsPast(f, w, v);
      }
    }
  }

  /** The step of `ReplaceAllFields` where the second field is the key. */
  lemma ReplaceAllFieldsAtKey(f: seq<string>, w: string, v: string)
    requires |f| >= 3 && f[1] == w && forall k :: 0 <= k < |f| ==> Quote !in f[k]
    requires Quote !in w && Quote !in v
    ensures Join(FieldReplace(f, w, v), Quote) == f[0] + ReplaceAll([Quote] + Join(f[1..], Quote), Quoted(w), Quoted(v))
    decreases |f|, 0
  {
    var pat, rep := Quoted(w), Quoted(v);
    var after := Join(f[2..], Quote);
    var r2 := FieldReplace(f[2..], w, v);
    assert ReplaceAll([Quote] + Join(f[1..], Quote), pat, rep) == rep + Join(r2, Quote) by {
      assert [Quote] + Join(f[1..], Quote) == pat + after by {
        assert [f[1]] + f[2..] == f[1..];
        JoinCons(f[1], f[2..], Quote);
      }
      assert ReplaceAll(pat + after, pat, rep) == rep + ReplaceAll(after, pat, rep) by {
        assert (pat + after)[..|pat|] == pat && (pat + after)[|pat|..] == after;
      }
      ReplaceAllFields(f[2..], w, v);
    }
    JoinAtKey(f, w, v);
  }

  /** The joined text after replacing the second field, when it is the key. */
  lemma JoinAtKey(f: seq<string>, w: string, v: string)
    requires |f| >= 3 && f[1] == w
    ensures Join(FieldReplace(f, w, v), Quote) == f[0] + (Quoted(v) + Join(FieldReplace(f[2..], w, v), Quote))
  {
    var r2 := FieldReplace(f[2..], w, v);
    FieldReplaceAtKey(f, w, v);
    var j := Join(r2, Quote);
    JoinCons(f[0], [v] + r2, Quote);
    JoinCons(v, r2, Quote);
    assert f[0] + [Quote] + (v + [Quote] + j) == f[0] + (([Quote] + v + [Quote]) + j);
  }

  /** Replacing the second field when it is the key, then carrying on after it. */
  lemma FieldReplaceAtKey(f: seq<string>, w: string, v: string)
    requires |f| >= 3 && f[1] == w
    ensures FieldReplace(f, w, v) == [f[0]] + ([v] + FieldReplace(f[2..], w, v))
  {
    var r, r2 := FieldReplace(f, w, v), FieldReplace(f[2..], w, v);
    assert Marks(f, w) == [false, true] + Marks(f[2..], w);
    assert forall i :: 2 <= i < |f| ==> r[i] == r2[i - 2];
  }

  /** Keeping the second field when it is not the key (or is the last), then carrying on from it. */
  lemma FieldReplacePast(f: seq<string>, w: string, v: string)
    requires |f| >= 2 && !(|f| >= 3 && f[1] == w)
    ensures FieldReplace(f, w, v) == [f[0]] + FieldReplace(f[1..], w, v)
  {
    var r, r1 := FieldReplace(f, w, v), FieldReplace(f[1..], w, v);
    assert Marks(f, w) == [false] + Marks(f[1..], w);
    assert forall i :: 1 <= i < |f| ==> r[i] == r1[i - 1];
  }

  /** The step of `ReplaceAllFields` where the second field is not the key, or is the last one. */
  lemma ReplaceAllFieldsPast(f: seq<string>, w: string, v: string)
    requires |f| >= 2 && !(|f| >= 3 && f[1] == w) && forall k :: 0 <= k < |f| ==> Quote !in f[k]
    requires Quote !in w && Quote !in v
    ensures Join(FieldReplace(f, w, v), Quote) == f[0] + ReplaceAll([Quote] + Join(f[1..], Quote), Quoted(w), Quoted(v))
    decreases |f|, 0
  {
    var tail := Join(f[1..], Quote);
    if |f| >= 3 {
      assert [f[1]] + f[2..] == f[1..];
      JoinCons(f[1], f[2..], Quote);
    }
    QuoteThenOther(f[1], tail, w, Quoted(w), Quoted(v));
    ReplaceAllFields(f[1..], w, v);
    var r1 := FieldReplace(f[1..], w, v);
    FieldReplacePast(f, w, v);
    JoinCons(f[0], r1, Quote);
    AppendAssoc(f[0], [Quote], Join(r1, Quote));
  }

  /** A quote, then a field other than `w` (or the last field), does not open the quoted `w`. */
  lemma QuoteThenOther(x: string, tail: string, w: string, pat: string, rep: string)
    requires Quote !in x && Quote !in w && pat == Quoted(w)
    requires tail == x || (x != w && |x| < |tail| && tail[..|x|] == x && tail[|x|] == Quote)
    ensures ReplaceAll([Quote] + tail, pat, rep) == [Quote] + ReplaceAll(tail, pat, rep)
  {
    var s := [Quote] + tail;
    assert s[1..] == tail;
    if |s| >= |pat| {
      assert s[..|pat|] != pat by {
        if |x| < |w| {
          assert tail[|x|] == Quote && pat[|x| + 1] == w[|x|];
          assert s[|x| + 1] != pat[|x| + 1];
        } else if |x| > |w| {
          assert tail[|w|] == x[|w|];
          assert s[|w| + 1] != pat[|w| + 1];
        } else {
          assert tail[..|w|] == x != w == pat[1..|w| + 1];
          assert s[1..|w| + 1] == tail[..|w|];
        }
      }
    }
  }

  /** A text that does not mention the quoted key has no field between quotes equal to it. */
  lemma NoKeyNoField(f: seq<string>, w: string, i: int)
    requires |f| >= 1 && forall k :: 0 <= k < |f| ==> Quote !in f[k]
    requires Quote !in w && !Contains(Join(f, Quote), Quoted(w))
    ensures Interior(f, i) ==> f[i] != w
  {
    var v := w + "x";
    MarksSomeField(f, w, i);
    FieldReplaceChanges(f, w, v);
    FieldReplaceAbsent(f, w, v);
  }

  /** Replacing a marked key by one of another length changes the fields. */
  lemma FieldReplaceChanges(f: seq<string>, w: string, v: string)
    requires |v| != |w|
    ensures true in Marks(f, w) ==> FieldReplace(f, w, v) != f
  {
    var m := Marks(f, w);
    if true in m {
      var j :| 0 <= j < |f| && m[j];
      assert FieldReplace(f, w, v)[j] == v && f[j] == w;
    }
  }

  /** Replacing a quoted key the text does not mention leaves the fields as they are. */
  lemma FieldReplaceAbsent(f: seq<string>, w: string, v: string)
    requires |f| >= 1 && forall k :: 0 <= k < |f| ==> Quote !in f[k]
    requires Quote !in w && Quote !in v && !Contains(Join(f, Quote), Quoted(w))
    ensures FieldReplace(f, w, v) == f
  {
    var r := FieldReplace(f, w, v);
    ReplaceAllAbsent(Join(f, Quote), Quoted(w), Quoted(v));
    ReplaceAllFields(f, w, v);
    assert Join(r, Quote) == Join(f, Quote);
    assert forall k :: 0 <= k < |r| ==> Quote !in r[k];
    SplitJoin(f, Quote);
    SplitJoin(r, Quote);
  }

  /** Replace-all of quoted keys, table by table, works field by field. */
  lemma {:induction false} ReplaceKeysFields(f: seq<string>, from: seq<string>, to: seq<string>)
    requires |f| >= 1 && KeyTable(from, to)
    requires forall k :: 0 <= k < |f| ==> Quote !in f[k]
    ensures ReplaceKeys(Join(f, Quote), from, to) == Join(FieldKeys(f, from, to), Quote)
    decreases |from|
  {
    if |from| > 0 {
      ReplaceAllFields(f, from[0], to[0]);
      KeyTableTail(from, to);
      ReplaceKeysFields(FieldReplace(f, from[0], to[0]), from[1..], to[1..]);
    }
  }

  // ---------------------------------------------------------------------
  // Compression, image prefixes

  /** A text starting before a quote starts with a quote-free prefix only if the part before the quote does. */
  lemma PrefixBeforeQuote(x: string, y: string, p: string)
    requires Quote !in x && Quote !in p
    ensures StartsWith(x + [Quote] + y, p) <==> StartsWith(x, p)
  {
    var s := x + [Quote] + y;
    if |p| <= |x| {
      assert s[..|p|] == x[..|p|];
    } else if |p| <= |s| {
      assert s[..|p|][|x|] == Quote;
    }
  }

  /** Only JPEG images on both sides of a quote, and nowhere else. */
  lemma {:induction false} OnlyJpegAround(x: string, y: string)
    requires Quote !in x
    ensures OnlyJpegImages(x + [Quote] + y) <==> OnlyJpegImages(x) && OnlyJpegImages(y)
    decreases |x|
  {
    var s := x + [Quote] + y;
    if |x| == 0 {
      assert s == [Quote] + y && s[1..] == y;
      assert !StartsWith(s, ImagePrefix) by {
        assert ImagePrefix[0] == 'd' && s[0] == Quote;
      }
    } else {
      assert s[1..] == x[1..] + [Quote] + y;
      OnlyJpegAround(x[1..], y);
      PrefixBeforeQuote(x, y, ImagePrefix);
      PrefixBeforeQuote(x, y, JpegPrefix);
    }
  }

  /** The fields of a text split on `"` have only JPEG images exactly when the text does. */
  lemma {:induction false} OnlyJpegJoin(f: seq<string>)
    requires |f| >= 1 && forall k :: 0 <= k < |f| ==> Quote !in f[k]
    ensures OnlyJpegImages(Join(f, Quote)) <==> forall k :: 0 <= k < |f| ==> OnlyJpegImages(f[k])
    decreases |f|
  {
    if |f| > 1 {
      OnlyJpegJoin(f[1..]);
      OnlyJpegAround(f[0], Join(f[1..], Quote));
      assert forall k :: 1 <= k < |f| ==> f[1..][k - 1] == f[k];
    }
  }

  /** A text shorter than `data:image/` holds no image. */
  lemma {:induction false} ShortTextNoImage(x: string)
    requires |x| < |ImagePrefix|
    ensures OnlyJpegImages(x)
    decreases |x|
  {
    if |x| > 0 {
      ShortTextNoImage(x[1..]);
    }
  }

  /** Dropping a prefix keeps only JPEG images. */
  lemma {:induction false} OnlyJpegDrop(z: string, n: nat)
    requires n <= |z| && OnlyJpegImages(z)
    ensures OnlyJpegImages(z[n..])
    decreases n
  {
    if n > 0 {
      OnlyJpegDrop(z[1..], n - 1);
      assert z[1..][n - 1..] == z[n..];
    }
  }

  /** Turning each `~` back into the JPEG prefix undoes the image step. */
  lemma {:induction false} DataRoundTrip(z: string)
    requires '~' !in z && OnlyJpegImages(z)
    ensures ReplaceAll(ReplaceDataUrls(z), "~", JpegPrefix) == z
    decreases |z|
  {
    if |z| > 0 {
      match DataUrlMatch(z)
      case Some(n) =>
        JpegMatch(z);
        var rest := ReplaceDataUrls(z[n..]);
        OnlyJpegDrop(z, n);
        assert '~' !in z[n..] by {
          forall k | 0 <= k < |z| - n ensures z[n..][k] != '~' { assert z[n..][k] == z[n + k]; }
        }
        DataRoundTrip(z[n..]);
        TildeAt(rest);
        assert z == JpegPrefix + z[n..];
      case None =>
        var rest := ReplaceDataUrls(z[1..]);
        assert '~' !in z[1..] by {
          forall k | 0 <= k < |z| - 1 ensures z[1..][k] != '~' { assert z[1..][k] == z[k + 1]; }
        }
        DataRoundTrip(z[1..]);
        TildePast(z[0], rest);
        assert [z[0]] + z[1..] == z;
    }
  }

  /** Expanding `~` turns a leading `~` into the JPEG prefix. */
  lemma TildeAt(t: string)
    ensures ReplaceAll("~" + t, "~", JpegPrefix) == JpegPrefix + ReplaceAll(t, "~", JpegPrefix)
  {
    assert ("~" + t)[..1] == "~" && ("~" + t)[1..] == t;
  }

  /** Expanding `~` passes over any other first character. */
  lemma TildePast(c: char, t: string)
    requires c != '~'
    ensures ReplaceAll([c] + t, "~", JpegPrefix) == [c] + ReplaceAll(t, "~", JpegPrefix)
  {
    assert ([c] + t)[..1] != "~";
    assert ([c] + t)[1..] == t;
  }

  // ---------------------------------------------------------------------
  // The stored forms of the cards key

  /** What `JSON.parse` can give back for the cards key. */
  datatype CardsJson =
    | CardArray(cards: seq<AdCard>)
    | Envelope(version: string, compressed: string, timestamp: int)
    /** Any other JSON value; `iterable` says whether `...` can spread it (a string, or an array of other values). */
    | OtherJson(iterable: bool)

  /** Whether `[...value]` succeeds: arrays and strings spread, a plain object, number, boolean or `null` throws. */
  predicate Spreadable(j: CardsJson) {
    j.CardArray? || (j.OtherJson? && j.iterable)
  }

  /** `JSON.stringify` and `JSON.parse` for the cards key; `parse` fails on text that is not JSON. */
  datatype JsonCodec = JsonCodec(stringify: CardsJson -> string, parse: string -> Option<CardsJson>)

  /** Parsing gives back whatever was serialised. */
  ghost predicate Lossless(codec: JsonCodec) {
    forall j :: codec.parse(codec.stringify(j)) == Some(j)
  }

  /** `cards.slice(-n)`: the last n elements, or all of them when there are fewer. */
  function LastN<T>(s: seq<T>, n: nat): (r: seq<T>)
    ensures |r| == Min(n, |s|)
    ensures r == s[|s| - |r|..]
  {
    s[|s| - Min(n, |s|)..]
  }

  datatype WriteError = QuotaExceeded | OtherWriteError

  class BrowserStorage {
    const hasWindow: bool
    /** Keys stored as raw text: cards, e-mail and gift flag. */
    var items: map<string, string>
    /** The short-link list, as `JSON.parse` reads it back. */
    var shorts: Slot<seq<ShortRecord>>
    /** All cards' QR codes (card id to format to URL), as `JSON.parse` reads it back. */
    var qrCodes: Slot<map<string, map<string, string>>>

    constructor (hasWindow: bool, items: map<string, string>, shorts: Slot<seq<ShortRecord>>,
                 qrCodes: Slot<map<string, map<string, string>>>)
      ensures this.hasWindow == hasWindow && this.items == items && this.shorts == shorts && this.qrCodes == qrCodes
    {
      this.hasWindow := hasWindow;
      this.items := items;
      this.shorts := shorts;
      this.qrCodes := qrCodes;
    }

    /**
     * `loadCards`: the parse of the stored text (`"[]"` when the key is
     * missing or empty), or no cards when it does not parse. A compressed
     * envelope is returned as it was parsed, not unwrapped.
     */
    function LoadCards(codec: JsonCodec): (r: CardsJson)
      reads this
      ensures !hasWindow || CardsKey !in items ==> r == CardArray([])
      ensures hasWindow && CardsKey in items && items[CardsKey] != "" && codec.parse(items[CardsKey]).Some?
        ==> r == codec.parse(items[CardsKey]).value
      ensures hasWindow && CardsKey in items && (items[CardsKey] == "" || codec.parse(items[CardsKey]).None?)
        ==> r == CardArray([])
    {
      if !hasWindow || CardsKey !in items || items[CardsKey] == "" then CardArray([])
      else match codec.parse(items[CardsKey])
        case Some(j) => j
        case None => CardArray([])
    }

    /**
     * `saveCards`: the last 20 cards as JSON, wrapped in a compressed `v2`
     * envelope when that text is longer than 100000 characters. When the
     * write fails for lack of quota, the last 10 cards are written
     * compressed instead; any other failure, or a failing retry, leaves the
     * key as it was.
     */
    method SaveCards(cards: seq<AdCard>, codec: JsonCodec, now: int, setFails: nat -> Option<WriteError>)
      modifies this
      ensures shorts == old(shorts) && qrCodes == old(qrCodes)
      ensures forall k :: k != CardsKey ==> (k in items <==> k in old(items)) && (k in items ==> items[k] == old(items)[k])
      ensures !hasWindow ==> items == old(items)
      ensures hasWindow && setFails(0).None? ==>
        var text := codec.stringify(CardArray(LastN(cards, KeptCards)));
        CardsKey in items && items[CardsKey] ==
          (if |text| > CompressThreshold then codec.stringify(Envelope("v2", Compress(text), now)) else text)
      ensures hasWindow && setFails(0) == Some(QuotaExceeded) && setFails(1).None? ==>
        var text := codec.stringify(CardArray(LastN(cards, KeptCardsOnQuota)));
        CardsKey in items && items[CardsKey] == codec.stringify(Envelope("v2", Compress(text), now))
      ensures hasWindow && setFails(0).Some? && (setFails(0) == Some(OtherWriteError) || setFails(1).Some?) ==>
        items == old(items)
    {
      if !hasWindow {
        return;
      }
      var cardsToSave := LastN(cards, KeptCards);
      var dataToSave := codec.stringify(CardArray(cardsToSave));
      var value := dataToSave;
      if |dataToSave| > CompressThreshold {
        var compressed := Compress(dataToSave);
        value := codec.stringify(Envelope("v2", compressed, now));
      }
      match setFails(0)
      case None =>
        items := items[CardsKey := value];
      case Some(QuotaExceeded) =>
        var limitedCards := LastN(cards, KeptCardsOnQuota);
        var limitedData := codec.stringify(CardArray(limitedCards));
        var compressed := Compress(limitedData);
        var payload := codec.stringify(Envelope("v2", compressed, now));
        if setFails(1).None? {
          items := items[CardsKey := payload];
        }
      case Some(OtherWriteError) =>
    }

    /** `loadShorts`: the stored list, or none when missing or unreadable. */
    function LoadShorts(): (r: seq<ShortRecord>)
      reads this
      ensures hasWindow && shorts.Holds? ==> r == shorts.value
      ensures !(hasWindow && shorts.Holds?) ==> r == []
    {
      if hasWindow && shorts.Holds? then shorts.value else []
    }

    /** `saveShorts`: a `setItem` that throws is caught and leaves the key as it was. */
    method SaveShorts(list: seq<ShortRecord>, setFails: bool)
      modifies this
      ensures hasWindow && !setFails ==> LoadShorts() == list
      ensures shorts == if hasWindow && !setFails then Holds(list) else old(shorts)
      ensures items == old(items) && qrCodes == old(qrCodes)
    {
      if hasWindow && !setFails {
        shorts := Holds(list);
      }
    }

    /** `loadEmail`: the stored text, or the empty text. */
    function LoadEmail(): (r: string)
      reads this
      ensures hasWindow && EmailKey in items ==> r == items[EmailKey]
      ensures !(hasWindow && EmailKey in items) ==> r == ""
    {
      if hasWindow && EmailKey in items then items[EmailKey] else ""
    }

    /** `saveEmail`: a `setItem` that throws is caught and leaves the key as it was. */
    method SaveEmail(email: string, setFails: bool)
      modifies this
      ensures hasWindow && !setFails ==> LoadEmail() == email
      ensures items == if hasWindow && !setFails then old(items)[EmailKey := email] else old(items)
      ensures shorts == old(shorts) && qrCodes == old(qrCodes)
    {
      if hasWindow && !setFails {
        items := items[EmailKey := email];
      }
    }

    /** `loadGiftStatus`: only the exact text `true` counts as claimed. */
    function LoadGiftStatus(): (r: bool)
      reads this
      ensures r <==> hasWindow && GiftKey in items && items[GiftKey] == "true"
    {
      hasWindow && GiftKey in items && items[GiftKey] == "true"
    }

    /** `saveGiftStatus`: a `setItem` that throws is caught and leaves the key as it was. */
    method SaveGiftStatus(claimed: bool, setFails: bool)
      modifies this
      ensures hasWindow && !setFails ==> LoadGiftStatus() == claimed
      ensures items == if hasWindow && !setFails then old(items)[GiftKey := if claimed then "true" else "false"] else old(items)
      ensures shorts == old(shorts) && qrCodes == old(qrCodes)
    {
      if hasWindow && !setFails {
        items := items[GiftKey := if claimed then "true" else "false"];
      }
    }

    /** `loadQRCodes(cardId)`: that card's entry, or an empty record. */
    function LoadQRCodes(cardId: string): (r: map<string, string>)
      reads this
      ensures hasWindow && qrCodes.Holds? && cardId in qrCodes.value ==> r == qrCodes.value[cardId]
      ensures !(hasWindow && qrCodes.Holds? && cardId in qrCodes.value) ==> r == map[]
    {
      if hasWindow && qrCodes.Holds? && cardId in qrCodes.value then qrCodes.value[cardId] else map[]
    }

    /**
     * `saveQRCodes(cardId, codes)`: replaces that card's entry and keeps the
     * others; unreadable stored content, or a `setItem` that throws, makes
     * the save fail silently.
     */
    method SaveQRCodes(cardId: string, codes: map<string, string>, setFails: bool)
      modifies this
      ensures hasWindow && !setFails && !old(qrCodes).Garbled? ==> LoadQRCodes(cardId) == codes
      ensures forall other :: other != cardId ==> LoadQRCodes(other) == old(LoadQRCodes(other))
      ensures !hasWindow || setFails || old(qrCodes).Garbled? ==> qrCodes == old(qrCodes)
      ensures items == old(items) && shorts == old(shorts)
    {
      if !hasWindow || setFails {
        return;
      }
      match qrCodes
      case Missing =>
        qrCodes := Holds(map[cardId := codes]);
      case Garbled =>
      case Holds(all) =>
        qrCodes := Holds(all[cardId := codes]);
    }
  }

  /**
   * Saving then loading: a short list comes back as the last 20 cards, a
   * long one as a `v2` envelope holding the compressed text of those cards.
   */
  lemma SaveThenLoad(codec: JsonCodec, cards: seq<AdCard>, now: int, text: string, stored: string)
    requires Lossless(codec)
    requires text == codec.stringify(CardArray(LastN(cards, KeptCards)))
    requires stored == (if |text| > CompressThreshold then codec.stringify(Envelope("v2", Compress(text), now)) else text)
    requires stored != ""
    ensures codec.parse(stored) == Some(if |text| > CompressThreshold then Envelope("v2", Compress(text), now)
                                        else CardArray(LastN(cards, KeptCards)))
  {
  }
}
