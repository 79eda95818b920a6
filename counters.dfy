/**
 * The character counters under the template textareas in app/static/js/script.js.
 * - A plain counter shows `length/max`. It is marked `error` from the limit on, and `warning`
 *   from 80% of the limit.
 * - The hashtag counter splits the text at commas, trims each piece and drops the empty ones.
 *   It then reports either how many tags exceed 20 characters or how many tags there are.
 *
 * Lengths are JavaScript lengths, counted in UTF-16 code units.
 */
module Counters {
  import opened JsText

  /** The limits the result cards pass to the counters. */
  const TitleCounterMax: nat := 30
  const MenuCounterMax: nat := 50
  const CommentCounterMax: nat := 100
  const HashtagCounterMax: nat := 50

  /** A hashtag longer than this is reported by the hashtag counter. */
  const LongTagLength: nat := 20

  const LongTagsSuffix: string := "個のタグが20文字を超えています"
  const TagsSuffix: string := "個のタグ"

  /** The class a character counter carries, if any. */
  datatype Level = Normal | Warning | Error

  /**
   * `length >= maxLength` gives `error`, otherwise `length >= maxLength * 0.8` gives `warning`.
   * The double nearest 0.8 exceeds it by less than 2^-54 of itself, which cannot move a
   * product of whole numbers across an integer, so the test is `5 * length >= 4 * maxLength`.
   */
  function CharLevel(length: nat, maxLength: nat): Level {
    if length >= maxLength then Error
    else if 5 * length >= 4 * maxLength then Warning
    else Normal
  }

  function Rank(l: Level): nat {
    match l
    case Normal => 0
    case Warning => 1
    case Error => 2
  }

  /** A longer text never shows a milder class. */
  lemma CharLevelMonotone(a: nat, b: nat, maxLength: nat)
    requires a <= b
    ensures Rank(CharLevel(a, maxLength)) <= Rank(CharLevel(b, maxLength))
  {
  }

  /** Where the bands start for the limits the cards use. */
  lemma CardThresholds()
    ensures CharLevel(23, TitleCounterMax) == Normal && CharLevel(24, TitleCounterMax) == Warning
    ensures CharLevel(29, TitleCounterMax) == Warning && CharLevel(30, TitleCounterMax) == Error
    ensures CharLevel(39, MenuCounterMax) == Normal && CharLevel(40, MenuCounterMax) == Warning
    ensures CharLevel(79, CommentCounterMax) == Normal && CharLevel(80, CommentCounterMax) == Warning
    ensures CharLevel(100, CommentCounterMax) == Error
  {
  }

  // ---------------------------------------------------------------------------------------
  // Hashtags
  // ---------------------------------------------------------------------------------------

  /** `.map(tag => tag.trim())` */
  function TrimAll(parts: seq<string>): (r: seq<string>)
    ensures |r| == |parts| && forall i :: 0 <= i < |parts| ==> r[i] == Trim(parts[i])
  {
    seq(|parts|, i requires 0 <= i < |parts| => Trim(parts[i]))
  }

  /** `.filter(tag => tag)`: the non-empty strings, in order. */
  function NonEmpty(ts: seq<string>): (r: seq<string>)
    ensures |r| <= |ts|
    ensures forall i :: 0 <= i < |r| ==> r[i] != [] && r[i] in ts
    decreases |ts|
  {
    if ts == [] then []
    else (if ts[0] == [] then [] else [ts[0]]) + NonEmpty(ts[1..])
  }

  /** `.filter(tag => tag.length > 20)` */
  function LongOnes(ts: seq<string>): (r: seq<string>)
    ensures |r| <= |ts|
    ensures forall i :: 0 <= i < |r| ==> Utf16Length(r[i]) > LongTagLength && r[i] in ts
    decreases |ts|
  {
    if ts == [] then []
    else (if Utf16Length(ts[0]) > LongTagLength then [ts[0]] else []) + LongOnes(ts[1..])
  }

  /** The tags the hashtag counter sees in a textarea value. */
  function Hashtags(value: string): seq<string> {
    NonEmpty(TrimAll(Split(value, ',')))
  }

  function LongTags(value: string): seq<string> {
    LongOnes(Hashtags(value))
  }

  /** A tag as the counter would read it: non-empty, trimmed, without a comma. */
  predicate CleanTag(t: string) {
    t != [] && Trim(t) == t && ',' !in t
  }

  /** Every tag the counter finds is clean. */
  lemma HashtagsAreClean(value: string)
    ensures forall i :: 0 <= i < |Hashtags(value)| ==> CleanTag(Hashtags(value)[i])
  {
    var parts := Split(value, ',');
    var trimmed := TrimAll(parts);
    forall j | 0 <= j < |trimmed|
      ensures trimmed[j] == Trim(trimmed[j]) && ',' !in trimmed[j]
    {
      TrimIdempotent(parts[j]);
    }
  }

  lemma {:induction false} TrimAllFixed(ts: seq<string>)
    requires forall i :: 0 <= i < |ts| ==> Trim(ts[i]) == ts[i]
    ensures TrimAll(ts) == ts
  {
  }

  lemma {:induction false} NonEmptyFixed(ts: seq<string>)
    requires forall i :: 0 <= i < |ts| ==> ts[i] != []
    ensures NonEmpty(ts) == ts
    decreases |ts|
  {
    if ts != [] {
      NonEmptyFixed(ts[1..]);
      assert [ts[0]] + ts[1..] == ts;
    }
  }

  /**
   * The card writes a template's hashtag array into the textarea, where it becomes the tags
   * joined with commas. The counter then reads exactly those tags back.
   */
  lemma {:induction false} HashtagsOfJoin(tags: seq<string>)
    requires forall i :: 0 <= i < |tags| ==> CleanTag(tags[i])
    ensures Hashtags(Join(",", tags)) == tags
  {
    if tags == [] {
      HashtagsOfEmpty();
    } else {
      SplitJoin(tags, ',');
      assert [','] == ",";
      assert Split(Join(",", tags), ',') == tags;
      TrimAllFixed(tags);
      NonEmptyFixed(tags);
    }
  }

  /** An empty textarea holds no tags. */
  lemma HashtagsOfEmpty()
    ensures Hashtags("") == []
  {
    assert Split("", ',') == [""];
    assert TrimAll([""]) == [""];
    assert NonEmpty([""]) == [];
  }

  lemma {:induction false} LongOnesNone(ts: seq<string>)
    requires forall i :: 0 <= i < |ts| ==> Utf16Length(ts[i]) <= LongTagLength
    ensures LongOnes(ts) == []
    decreases |ts|
  {
    if ts != [] {
      LongOnesNone(ts[1..]);
    }
  }

  /**
   * Tags of at most 20 characters inside the BMP, which the server's length check lets through,
   * show the tag count and no error.
   */
  lemma ServerTagsShowNoError(tags: seq<string>)
    requires forall i :: 0 <= i < |tags| ==> CleanTag(tags[i]) && |tags[i]| <= LongTagLength && InBmp(tags[i])
    ensures LongTags(Join(",", tags)) == []
    ensures Hashtags(Join(",", tags)) == tags
  {
    HashtagsOfJoin(tags);
    forall i | 0 <= i < |tags|
      ensures Utf16Length(tags[i]) <= LongTagLength
    {
      Utf16LengthIsLenIffBmp(tags[i]);
    }
    LongOnesNone(tags);
  }

  /**
   * Outside the BMP the two length checks part: eleven emoji pass the server's 20-character
   * limit but are 22 UTF-16 units long, so the counter flags that tag.
   */
  lemma EmojiTagFlagged()
    ensures var t := seq(11, _ => '\U{1F600}');
      |t| <= LongTagLength && LongTags(t) == [t]
  {
    var t := seq(11, _ => '\U{1F600}');
    TrimStartFixed(t);
    TrimEndFixed(t);
    assert Trim(t) == t;
    assert Split(t, ',') == [t] by {
      SplitAfterPlainPrefix(t, "", ',');
      assert t + "" == t;
    }
    assert TrimAll([t]) == [t];
    assert NonEmpty([t]) == [t];
    assert Utf16Length(t) == 22 by {
      Utf16LengthIsLenIffBmp(t);
      Utf16LengthAtLeastDouble(t);
    }
  }

  lemma {:induction false} Utf16LengthAtLeastDouble(s: string)
    requires forall i :: 0 <= i < |s| ==> s[i] as int >= 0x10000
    ensures Utf16Length(s) == 2 * |s|
    decreases |s|
  {
    if s != [] {
      Utf16LengthAtLeastDouble(s[1..]);
    }
  }

  /** The hashtag counter's text when `n` tags are too long. */
  function LongTagsText(n: nat): string {
    NatToDecimal(n) + LongTagsSuffix
  }

  /** The hashtag counter's text for `n` tags. */
  function TagCountText(n: nat): string {
    NatToDecimal(n) + TagsSuffix
  }

  /**
   * The two kinds of hashtag text never look alike, and each gives its count back: the
   * too-long report ends in "す", the tag count in "グ".
   */
  lemma HashtagTextsDistinct(m: nat, n: nat)
    ensures LongTagsText(m) != TagCountText(n)
    ensures LongTagsText(m) == LongTagsText(n) ==> m == n
    ensures TagCountText(m) == TagCountText(n) ==> m == n
  {
    var a, b := LongTagsText(m), TagCountText(n);
    assert a[|a| - 1] == 'す' && b[|b| - 1] == 'グ';
    if LongTagsText(m) == LongTagsText(n) {
      var c := LongTagsText(n);
      assert NatToDecimal(m) == a[..|a| - |LongTagsSuffix|];
      assert NatToDecimal(n) == c[..|c| - |LongTagsSuffix|];
      DecimalInjective(m, n);
    }
    if TagCountText(m) == TagCountText(n) {
      var d, e := TagCountText(m), TagCountText(n);
      assert NatToDecimal(m) == d[..|d| - |TagsSuffix|];
      assert NatToDecimal(n) == e[..|e| - |TagsSuffix|];
      DecimalInjective(m, n);
    }
  }

  /** A counter element: its text and its `warning` and `error` classes. */
  class CounterElement {
    var text: string
    var warning: bool
    var error: bool

    constructor ()
      ensures text == "" && !warning && !error
    {
      text := "";
      warning := false;
      error := false;
    }

    /** `updateCharCount`: the count over the limit, and at most one of the two classes. */
    method UpdateCharCount(value: string, maxLength: nat)
      modifies this
      ensures text == NatToDecimal(Utf16Length(value)) + "/" + NatToDecimal(maxLength)
      ensures error <==> Utf16Length(value) >= maxLength
      ensures warning <==> CharLevel(Utf16Length(value), maxLength) == Warning
      ensures !(warning && error)
    {
      var length := Utf16Length(value);
      text := NatToDecimal(length) + "/" + NatToDecimal(maxLength);
      warning := false;
      error := false;
      if length >= maxLength {
        error := true;
      } else if 5 * length >= 4 * maxLength {
        warning := true;
      }
    }

    /**
     * `updateHashtagCount`: the number of over-long tags with the error class, or else the
     * number of tags with both classes removed. The first branch leaves `warning` as it was.
     */
    method UpdateHashtagCount(value: string)
      modifies this
      ensures LongTags(value) != [] ==>
        text == LongTagsText(|LongTags(value)|) && error && warning == old(warning)
      ensures LongTags(value) == [] ==>
        text == TagCountText(|Hashtags(value)|) && !error && !warning
    {
      var longTags := LongTags(value);
      if longTags != [] {
        text := LongTagsText(|longTags|);
        error := true;
      } else {
        text := TagCountText(|Hashtags(value)|);
        warning := false;
        error := false;
      }
    }
  }
}
