// Export presets and file names (src/lib/export-presets.ts): the table of
// social-media canvas sizes, the MIME type of an export format, and the
// download name built from a card's title.
//
// Titles are lowered with ASCII case mapping; see README for what that
// leaves out.

module ExportPresets {
  import opened Common

  datatype ExportPreset = ExportPreset(id: string, name: string, width: nat, height: nat, platform: string, description: string)

  /** `EXPORT_PRESETS`. */
  const Presets: seq<ExportPreset> := [
    ExportPreset("ig-feed", "Instagram Feed", 1080, 1080, "Instagram", "Square posts"),
    ExportPreset("ig-story", "Instagram Story", 1080, 1920, "Instagram", "Vertical stories"),
    ExportPreset("ig-reel", "Instagram Reel", 1080, 1920, "Instagram", "Vertical video cover"),
    ExportPreset("fb-feed", "Facebook Feed", 1200, 630, "Facebook", "Link preview"),
    ExportPreset("fb-story", "Facebook Story", 1080, 1920, "Facebook", "Vertical stories"),
    ExportPreset("fb-cover", "Facebook Cover", 1200, 315, "Facebook", "Page cover photo"),
    ExportPreset("x-post", "X (Twitter) Post", 1200, 675, "X", "Tweet image"),
    ExportPreset("x-header", "X (Twitter) Header", 1500, 500, "X", "Profile header"),
    ExportPreset("yt-thumbnail", "YouTube Thumbnail", 1280, 720, "YouTube", "Video thumbnail"),
    ExportPreset("yt-banner", "YouTube Banner", 2560, 1440, "YouTube", "Channel banner"),
    ExportPreset("tiktok-video", "TikTok Video", 1080, 1920, "TikTok", "Vertical video cover"),
    ExportPreset("service-square", "Service Ad Square", 1080, 1080, "Service", "Perfect for service ads"),
    ExportPreset("li-post", "LinkedIn Post", 1200, 627, "LinkedIn", "Link preview"),
    ExportPreset("li-banner", "LinkedIn Banner", 1584, 396, "LinkedIn", "Profile banner"),
    ExportPreset("print-a4", "Print A4", 2480, 3508, "Print", "300 DPI A4"),
    ExportPreset("print-flyer", "Print Flyer", 1275, 1650, "Print", "5x6.5 inch flyer"),
    ExportPreset("web-banner", "Web Banner", 728, 90, "Web", "Leaderboard banner")
  ]

  /** The table holds seventeen presets with distinct ids and non-empty canvases. */
  lemma PresetTable()
    ensures |Presets| == 17
    ensures forall i, j :: 0 <= i < j < |Presets| ==> Presets[i].id != Presets[j].id
    ensures forall i :: 0 <= i < |Presets| ==> Presets[i].width > 0 && Presets[i].height > 0
  {
  }

  /** `getFormatMimeType`: the three known formats name their own type; anything else is PNG. */
  function FormatMimeType(format: string): (mime: string)
    ensures format in {"png", "jpeg", "webp"} ==> mime == "image/" + format
    ensures format !in {"png", "jpeg", "webp"} ==> mime == "image/png"
  {
    match format
    case "png" => "image/png"
    case "jpeg" => "image/jpeg"
    case "webp" => "image/webp"
    case _ => "image/png"
  }

  /** `[a-z0-9]`. */
  predicate IsSlugChar(c: char) {
    'a' <= c <= 'z' || '0' <= c <= '9'
  }

  /** What a slug may hold: slug characters and single dashes between them. */
  predicate DashSeparated(s: string) {
    && (forall i :: 0 <= i < |s| ==> IsSlugChar(s[i]) || s[i] == '-')
    && (forall i :: 0 <= i < |s| - 1 ==> !(s[i] == '-' && s[i + 1] == '-'))
  }

  /** The length of the leading run of characters outside `[a-z0-9]`. */
  function RunLength(s: string): (n: nat)
    ensures n <= |s|
    ensures forall i :: 0 <= i < n ==> !IsSlugChar(s[i])
    ensures n < |s| ==> IsSlugChar(s[n])
  {
    if |s| > 0 && !IsSlugChar(s[0]) then 1 + RunLength(s[1..]) else 0
  }

  /** The text after that run. */
  function SkipRun(s: string): (r: string)
    ensures |s| > 0 && !IsSlugChar(s[0]) ==> |r| < |s|
    ensures |r| > 0 ==> IsSlugChar(r[0])
  {
    s[RunLength(s)..]
  }

  /** `.replace(/[^a-z0-9]+/g, "-")`: each run outside `[a-z0-9]` becomes one dash. */
  function Dashify(s: string): (r: string)
    ensures DashSeparated(r)
    ensures |r| > 0 <==> |s| > 0
    ensures |r| > 0 ==> (r[0] == '-' <==> !IsSlugChar(s[0]))
    ensures |r| > 0 ==> (r[|r| - 1] == '-' <==> !IsSlugChar(s[|s| - 1]))
    decreases |s|
  {
    if |s| == 0 then ""
    else if IsSlugChar(s[0]) then
      var rest := Dashify(s[1..]);
      assert |s| > 1 ==> s[1..][|s[1..]| - 1] == s[|s| - 1];
      [s[0]] + rest
    else
      var tail := SkipRun(s);
      var rest := Dashify(tail);
      assert |tail| > 0 ==> tail[|tail| - 1] == s[|s| - 1];
      assert |tail| == 0 ==> !IsSlugChar(s[|s| - 1]);
      "-" + rest
  }

  /** `.replace(/(^-|-$)/g, "")`. */
  function StripDashes(s: string): string {
    var front := if |s| > 0 && s[0] == '-' then s[1..] else s;
    if |front| > 0 && front[|front| - 1] == '-' then front[..|front| - 1] else front
  }

  /** The title's slug. */
  function Slug(title: string): string {
    StripDashes(Dashify(Lower(title)))
  }

  /** `buildExportFilename`. */
  function ExportFilename(cardTitle: string, preset: Option<ExportPreset>, format: string): (name: string)
    ensures StartsWith(name, Slug(cardTitle))
    ensures preset.Some? ==> EndsWith(name, "-" + preset.value.id + "." + format)
    ensures preset.None? ==> EndsWith(name, "." + format) && |name| == |Slug(cardTitle)| + 1 + |format|
  {
    var tail := if preset.Some? then "-" + preset.value.id + "." + format else "." + format;
    ConcatEnds(Slug(cardTitle), tail);
    Slug(cardTitle) + tail
  }

  /** A slug is dash-separated slug characters with no dash at either end. */
  lemma SlugShape(title: string)
    ensures DashSeparated(Slug(title))
    ensures |Slug(title)| > 0 ==> Slug(title)[0] != '-' && Slug(title)[|Slug(title)| - 1] != '-'
  {
    var d := Dashify(Lower(title));
    var front := if |d| > 0 && d[0] == '-' then d[1..] else d;
    assert DashSeparated(front) by {
      assert forall i :: 0 <= i < |front| ==> front[i] == d[i + (|d| - |front|)];
    }
    assert |front| > 0 ==> front[0] != '-' by {
      if |d| > 1 && d[0] == '-' {
        assert front[0] == d[1];
        assert !(d[0] == '-' && d[1] == '-');
      }
    }
  }

  /** The slug characters of a string, in order. */
  function SlugChars(s: string): string {
    if |s| == 0 then "" else (if IsSlugChar(s[0]) then [s[0]] else "") + SlugChars(s[1..])
  }

  lemma {:induction false} SlugCharsAppend(a: string, b: string)
    ensures SlugChars(a + b) == SlugChars(a) + SlugChars(b)
  {
    if |a| > 0 {
      SlugCharsAppend(a[1..], b);
      assert (a + b)[1..] == a[1..] + b;
    } else {
      assert a + b == b;
    }
  }

  lemma {:induction false} SkipRunDropsNothing(s: string)
    ensures SlugChars(SkipRun(s)) == SlugChars(s)
    decreases |s|
  {
    if |s| > 0 && !IsSlugChar(s[0]) {
      SkipRunDropsNothing(s[1..]);
    }
  }

  /** Replacing runs by dashes keeps every letter and digit, in order. */
  lemma {:induction false} DashifyKeepsSlugChars(s: string)
    ensures SlugChars(Dashify(s)) == SlugChars(s)
    decreases |s|
  {
    if |s| > 0 {
      if IsSlugChar(s[0]) {
        DashifyKeepsSlugChars(s[1..]);
        SlugCharsAppend([s[0]], Dashify(s[1..]));
      } else {
        DashifyKeepsSlugChars(SkipRun(s));
        SkipRunDropsNothing(s);
        assert SlugChars(s) == SlugChars(s[1..]);
        SkipRunDropsNothing(s[1..]);
        assert SkipRun(s) == SkipRun(s[1..]);
        SlugCharsAppend("-", Dashify(SkipRun(s)));
      }
    }
  }

  /** A dash at either end holds no letter or digit. */
  lemma SlugCharsIgnoreEndDashes(s: string)
    ensures |s| > 0 && s[0] == '-' ==> SlugChars(s[1..]) == SlugChars(s)
    ensures |s| > 0 && s[|s| - 1] == '-' ==> SlugChars(s[..|s| - 1]) == SlugChars(s)
  {
    if |s| > 0 && s[|s| - 1] == '-' {
      SlugCharsAppend(s[..|s| - 1], "-");
      assert s == s[..|s| - 1] + "-";
    }
  }

  /** The slug keeps exactly the lowered title's letters and digits, in order. */
  lemma SlugKeepsLettersAndDigits(title: string)
    ensures SlugChars(Slug(title)) == SlugChars(Lower(title))
  {
    var d := Dashify(Lower(title));
    DashifyKeepsSlugChars(Lower(title));
    SlugCharsIgnoreEndDashes(d);
    var front := if |d| > 0 && d[0] == '-' then d[1..] else d;
    SlugCharsIgnoreEndDashes(front);
    var slug := if |front| > 0 && front[|front| - 1] == '-' then front[..|front| - 1] else front;
    assert Slug(title) == slug;
    assert SlugChars(front) == SlugChars(d);
    assert SlugChars(slug) == SlugChars(front);
  }

  /** A dash-separated string is its own dash rewrite. */
  lemma {:induction false} DashifyFixed(s: string)
    requires DashSeparated(s)
    ensures Dashify(s) == s
    decreases |s|
  {
    if |s| > 0 {
      var rest := s[1..];
      assert DashSeparated(rest) by {
        assert forall i :: 0 <= i < |rest| ==> rest[i] == s[i + 1];
      }
      DashifyFixed(rest);
      if IsSlugChar(s[0]) {
        assert Dashify(s) == [s[0]] + Dashify(rest);
      } else {
        assert s[0] == '-';
        assert |rest| > 0 ==> IsSlugChar(rest[0]) by {
          if |rest| > 0 {
            assert !(s[0] == '-' && s[1] == '-');
          }
        }
        assert RunLength(rest) == 0;
        assert RunLength(s) == 1;
        assert SkipRun(s) == rest;
        assert Dashify(s) == "-" + Dashify(rest);
      }
      assert s == [s[0]] + rest;
    }
  }

  /** Slugging a slug changes nothing. */
  lemma SlugIdempotent(title: string)
    ensures Slug(Slug(title)) == Slug(title)
  {
    var slug := Slug(title);
    SlugShape(title);
    assert Lower(slug) == slug;
    DashifyFixed(slug);
  }
}
