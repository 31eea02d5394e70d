// Short links kept in the browser (src/lib/shortener.ts): creating one puts
// it first in the stored list; the hosted landing URL is built from a base,
// a variant and a card id.
//
// `nanoid`'s random draws are the `draw` input: the k-th character of a slug
// is the alphabet letter at `draw(k) % 32`. The ISO creation time is `nowIso`,
// and whether the `setItem` of the save throws is `setFails`.

module Shortener {
  import opened Common
  import opened Cards
  import Storage

  const SlugAlphabet := "123456789abcdefghjkmnpqrstuvwxyz"
  const SlugLength := 7

  predicate IsSlug(s: string) {
    |s| == SlugLength && forall k :: 0 <= k < |s| ==> s[k] in SlugAlphabet
  }

  /** `customAlphabet(SlugAlphabet, 7)()` for the given random draws. */
  function Slug(draw: nat -> nat): (r: string)
    ensures IsSlug(r)
  {
    seq(SlugLength, k requires 0 <= k < SlugLength => SlugAlphabet[draw(k) % |SlugAlphabet|])
  }

  /**
   * `Shortener.create(target)`: a record with a fresh slug, put at the head
   * of the stored list ahead of the previous records.
   */
  method Create(store: Storage.BrowserStorage, target: string, draw: nat -> nat, nowIso: string, setFails: bool)
    returns (rec: ShortRecord)
    modifies store
    ensures rec == ShortRecord(Slug(draw), target, nowIso) && IsSlug(rec.slug)
    ensures store.hasWindow && !setFails ==> store.LoadShorts() == [rec] + old(store.LoadShorts())
    ensures !store.hasWindow || setFails ==> store.shorts == old(store.shorts)
    ensures store.items == old(store.items) && store.qrCodes == old(store.qrCodes)
  {
    var list := store.LoadShorts();
    var slug := Slug(draw);
    rec := ShortRecord(slug, target, nowIso);
    list := [rec] + list;
    store.SaveShorts(list, setFails);
  }

  /** `Shortener.list()`: the stored records, unchanged. */
  method List(store: Storage.BrowserStorage) returns (list: seq<ShortRecord>)
    ensures list == store.LoadShorts()
  {
    list := store.LoadShorts();
  }

  /** `makeHostedUrl(base, cardId, variant)`. */
  function MakeHostedUrl(base: string, cardId: string, variant: string): (url: string)
    ensures StartsWith(url, base + "/landing/")
    ensures EndsWith(url, "/" + cardId)
    ensures |url| == |base| + |"/landing/"| + |variant| + 1 + |cardId|
  {
    base + "/landing/" + Lower(variant) + "/" + cardId
  }

  /**
   * The last path segment of a hosted URL is the card id and the one
   * before it the lower-cased variant, when neither contains a `/`.
   */
  lemma HostedUrlSegments(base: string, cardId: string, variant: string)
    requires '/' !in cardId && '/' !in variant
    ensures var parts := Split(MakeHostedUrl(base, cardId, variant), '/');
      |parts| >= 2 && parts[|parts| - 1] == cardId && parts[|parts| - 2] == Lower(variant)
  {
    var v := Lower(variant);
    LowerKeepsSlashOut(variant);
    var a := base + "/landing";
    var b := v + ['/'] + cardId;
    HostedUrlPieces(base, cardId, variant);
    SplitWithoutSeparator(cardId, '/');
    SplitWithoutSeparator(v, '/');
    SplitConcatSeparator(v, cardId, '/');
    SplitConcatSeparator(a, b, '/');
  }

  /** Lower-casing adds no slash. */
  lemma LowerKeepsSlashOut(s: string)
    requires '/' !in s
    ensures '/' !in Lower(s)
  {
    forall k | 0 <= k < |s| ensures Lower(s)[k] != '/' {
      assert Lower(s)[k] == LowerChar(s[k]);
    }
  }

  /** The hosted URL is `base/landing`, a slash, then `variant/cardId`. */
  lemma HostedUrlPieces(base: string, cardId: string, variant: string)
    ensures MakeHostedUrl(base, cardId, variant) == (base + "/landing") + ['/'] + (Lower(variant) + ['/'] + cardId)
  {
    var v := Lower(variant);
    assert "/landing/" == "/landing" + ['/'];
    AppendAssoc(base, "/landing", ['/']);
    AppendAssoc(base + "/landing" + ['/'], v, ['/']);
    AppendAssoc(base + "/landing" + ['/'], v + ['/'], cardId);
    AppendAssoc(v, ['/'], cardId);
    AppendAssoc(base + "/landing", ['/'], v + ['/'] + cardId);
  }

  /** Splitting `a + sep + b` gives the pieces of `a`, then those of `b`, with the last of `a` and first of `b` kept apart. */
  lemma {:induction false} SplitConcatSeparator(a: string, b: string, sep: char)
    ensures Split(a + [sep] + b, sep) == Split(a, sep) + Split(b, sep)
  {
    var s := a + [sep] + b;
    if |a| == 0 {
      assert s[0] == sep && s[1..] == b;
    } else {
      SplitConcatSeparator(a[1..], b, sep);
      assert s[0] == a[0] && s[1..] == a[1..] + [sep] + b;
      if a[0] != sep {
        MergeHead(a[0], Split(a[1..], sep), Split(b, sep));
      } else {
        AppendAssoc([""], Split(a[1..], sep), Split(b, sep));
      }
    }
  }

  /** Gluing a character to the first piece commutes with appending more pieces. */
  lemma MergeHead(c: char, front: seq<string>, back: seq<string>)
    requires |front| >= 1
    ensures [[c] + (front + back)[0]] + (front + back)[1..] == [[c] + front[0]] + front[1..] + back
  {
    assert (front + back)[1..] == front[1..] + back;
  }
}
