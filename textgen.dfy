/** The text side of listing enrichment (`TextGenerator`): captions,
    overlay summaries and hashtags. What the language model answers is an
    input: `Some(text)` is its reply, `None` stands for a call that raised,
    in which case the fixed fallback texts are used. */
module TextGen {
  import opened Common

  predicate EndsWith(s: string, suffix: string)
  {
    |suffix| <= |s| && s[|s| - |suffix|..] == suffix
  }

  // ---------------------------------------------------------------------
  // Captions.
  // ---------------------------------------------------------------------

  /** The call to action appended to every generated caption. */
  const CallToAction: string := "\n\n💬 有興趣？立即DM查詢詳情！" + "\n📱 WhatsApp聯絡我們"

  /** The fixed end of the fallback caption: an invitation line, a DM line
      and the hashtag line. */
  const FallbackTail: string :=
    "\n📍 優質物業，歡迎查詢！\n" + "💬 DM了解更多詳情\n\n" + "#租屋 #香港租屋 #物業出租 #apartment #rental #hongkong"

  function FallbackHead(data: Dict): string
  {
    "🏠 " + Show(Get(data, "title", Str("物業出租"))) + "\n"
  }

  /** The rent line, present only when the price is truthy. */
  function FallbackRent(price: Value): (r: string)
    ensures Truthy(price) <==> |r| > 0
    ensures |r| > 0 ==> r[0] == '💰'
  {
    if Truthy(price) then "💰 租金: $" + Show(price) + "\n" else ""
  }

  /** `_create_fallback_caption`: the caption starts with the title line
      and ends with the fixed tail; right after the title line comes the
      rent line exactly when the price is truthy, and the tail (which starts
      with a line break) otherwise. */
  function FallbackCaption(data: Dict): (r: string)
    ensures FallbackHead(data) <= r
    ensures EndsWith(r, FallbackTail)
    ensures var rest := r[|FallbackHead(data)|..];
      Truthy(Get(data, "price", Str(""))) <==> (|rest| > 0 && rest[0] == '💰')
  {
    var head := FallbackHead(data);
    var rent := FallbackRent(Get(data, "price", Str("")));
    TailStartsWithBreak();
    Pieces(head, rent, FallbackTail);
    if |rent| > 0 then
      assert (rent + FallbackTail)[0] == rent[0];
      head + rent + FallbackTail
    else head + rent + FallbackTail
  }

  lemma TailStartsWithBreak()
    ensures |FallbackTail| > 0 && FallbackTail[0] == '\n'
  {
  }

  lemma Pieces(head: string, mid: string, tail: string)
    ensures head <= head + mid + tail
    ensures EndsWith(head + mid + tail, tail)
    ensures (head + mid + tail)[|head|..] == mid + tail
  {
    var r := head + mid + tail;
    assert r == head + (mid + tail);
  }

  /** `generate_instagram_caption`: the stripped reply followed by the call
      to action, or the fallback caption when the call raised. */
  function GenerateCaption(data: Dict, reply: Option<string>): (r: string)
    ensures reply.Some? ==> EndsWith(r, CallToAction) && r[..|r| - |CallToAction|] == Strip(reply.value)
    ensures reply.None? ==> r == FallbackCaption(data)
  {
    match reply
    case Some(text) => Strip(text) + CallToAction
    case None => FallbackCaption(data)
  }

  // ---------------------------------------------------------------------
  // Overlay summaries.
  // ---------------------------------------------------------------------

  function Min(a: int, b: int): int
  {
    if a < b then a else b
  }

  /** The first three lines of a text, joined again: at most two line
      breaks remain. */
  function FirstLines(t: string): (r: string)
    ensures Occurrences(r, '\n') <= 2
  {
    var lines := Split(t, '\n');
    var head := lines[..Min(3, |lines|)];
    assert forall k :: 0 <= k < |head| ==> head[k] == lines[k];
    JoinOccurrences(head, '\n');
    Join(head, "\n")
  }

  /** The stripped reply cut to its first three lines. */
  function SummaryFromReply(text: string): (r: string)
    ensures Occurrences(r, '\n') <= 2
  {
    FirstLines(Strip(text))
  }

  /** A generated summary is the first three lines of the stripped reply:
      it is the start of the stripped reply, the whole of it when that has
      at most three lines, and otherwise exactly three lines followed in the
      reply by a line break. */
  lemma SummaryFromReplyMeaning(text: string)
    ensures Occurrences(Strip(text), '\n') <= 2 ==> SummaryFromReply(text) == Strip(text)
    ensures exists tail ::
      (Strip(text) == SummaryFromReply(text) + tail
       && (tail == [] || (tail[0] == '\n' && Occurrences(SummaryFromReply(text), '\n') == 2)))
  {
    var tail := FirstLinesMeaning(Strip(text));
  }

  /** The text is its first three lines followed by the rest, which is
      empty when the text has at most three lines and starts with a break
      otherwise. */
  lemma FirstLinesMeaning(t: string) returns (tail: string)
    ensures Occurrences(t, '\n') <= 2 ==> FirstLines(t) == t
    ensures t == FirstLines(t) + tail
    ensures tail == [] || (tail[0] == '\n' && Occurrences(FirstLines(t), '\n') == 2)
  {
    var lines := Split(t, '\n');
    var summary := FirstLines(t);
    JoinSplit(t, '\n');
    JoinOccurrences(lines, '\n');
    if |lines| <= 3 {
      assert lines[..Min(3, |lines|)] == lines;
      tail := [];
      assert t == summary + tail;
    } else {
      tail := FirstThreeLines(lines);
      assert t == summary + tail;
    }
  }

  /** Of more than three lines, the first three joined hold two breaks and
      the rest of the text starts with a break. */
  lemma FirstThreeLines(lines: seq<string>) returns (tail: string)
    requires |lines| > 3
    requires forall k :: 0 <= k < |lines| ==> '\n' !in lines[k]
    ensures Occurrences(Join(lines[..3], "\n"), '\n') == 2
    ensures Join(lines, "\n") == Join(lines[..3], "\n") + tail && |tail| > 0 && tail[0] == '\n'
  {
    var head := lines[..3];
    assert forall k :: 0 <= k < |head| ==> head[k] == lines[k];
    JoinOccurrences(head, '\n');
    JoinAt(lines, 3, "\n");
    tail := "\n" + Join(lines[3..], "\n");
  }

  /** `development[:15]` on a value: strings are cut, anything else that is
      truthy cannot be joined into the summary and raises. */
  function Head15(v: Value): Result<string>
  {
    match v
    case Str(s) => Ok(s[..Min(15, |s|)])
    case _ => Err(Internal("sequence item 0: expected str instance"))
  }

  /** The lines `_create_fallback_summary` collects: development (or title)
      cut to 15 characters, the rent, the area, each only when truthy. */
  function FallbackSummaryLines(data: Dict): (r: Result<seq<string>>)
    ensures r.Ok? ==> |r.value| <= 3
    ensures r.Ok? && Truthy(Get(data, "development", Get(data, "title", Str("物業")))) ==>
              |r.value| >= 1 && |r.value[0]| <= 15
    ensures r.Err? <==> var d := Get(data, "development", Get(data, "title", Str("物業"))); Truthy(d) && !d.Str?
    ensures r.Ok? ==>
      var d := Get(data, "development", Get(data, "title", Str("物業")));
      var price := Get(data, "price", Str(""));
      var area := Get(data, "saleable_area", Get(data, "usable_area", Str("")));
      r.value == (if Truthy(d) then [d.s[..Min(15, |d.s|)]] else [])
                 + (if Truthy(price) then ["$" + Show(price)] else [])
                 + (if Truthy(area) then ["面積: " + Show(area)] else [])
  {
    var development := Get(data, "development", Get(data, "title", Str("物業")));
    var price := Get(data, "price", Str(""));
    var area := Get(data, "saleable_area", Get(data, "usable_area", Str("")));
    var first: Result<seq<string>> :=
      if Truthy(development) then (match Head15(development) case Ok(h) => Ok([h]) case Err(e) => Err(e))
      else Ok([]);
    match first
    case Err(e) => Err(e)
    case Ok(lines) =>
      var lines := if Truthy(price) then lines + ["$" + Show(price)] else lines;
      var lines := if Truthy(area) then lines + ["面積: " + Show(area)] else lines;
      Ok(lines)
  }

  /** `_create_fallback_summary`: fails exactly when collecting the lines
      fails, and otherwise joins all of them, since there are never more
      than three. */
  function FallbackSummary(data: Dict): (r: Result<string>)
    ensures r.Err? <==> FallbackSummaryLines(data).Err?
    ensures r.Ok? ==> r.value == Join(FallbackSummaryLines(data).value, "\n")
  {
    match FallbackSummaryLines(data)
    case Err(e) => Err(e)
    case Ok(lines) =>
      assert lines[..Min(3, |lines|)] == lines;
      Ok(Join(lines[..Min(3, |lines|)], "\n"))
  }

  /** When no collected value contains a line break, the fallback summary
      has at most three lines. */
  lemma FallbackSummaryLineCount(data: Dict)
    requires FallbackSummary(data).Ok?
    requires forall k :: 0 <= k < |FallbackSummaryLines(data).value| ==> '\n' !in FallbackSummaryLines(data).value[k]
    ensures Occurrences(FallbackSummary(data).value, '\n') <= 2
  {
    JoinOccurrences(FallbackSummaryLines(data).value, '\n');
  }

  /** `generate_property_summary`. */
  function GenerateSummary(data: Dict, reply: Option<string>): (r: Result<string>)
    ensures reply.Some? ==> r.Ok?
  {
    match reply
    case Some(text) => Ok(SummaryFromReply(text))
    case None => FallbackSummary(data)
  }

  // ---------------------------------------------------------------------
  // Hashtags.
  // ---------------------------------------------------------------------

  const DefaultHashtags: seq<string> :=
    ["#租屋", "#香港租屋", "#物業出租", "#apartment", "#rental", "#hongkong", "#hkproperty", "#hkrental", "#property"]

  const MaxHashtags: nat := 15

  /** The default-tag loop of `generate_hashtags` as a fold: a default is
      appended when it is not yet present and fewer than 15 tags are held.
      The tags found stay in front; what is added is new and distinct. */
  function AddDefaults(tags: seq<string>, defaults: seq<string>): (r: seq<string>)
    ensures |tags| <= |r| && r[..|tags|] == tags
    ensures |tags| >= MaxHashtags ==> r == tags
    ensures |tags| < MaxHashtags ==> |r| <= MaxHashtags
    ensures forall i :: |tags| <= i < |r| ==> r[i] in defaults && r[i] !in tags
    ensures forall i, j :: |tags| <= i < j < |r| ==> r[i] != r[j]
    decreases |defaults|
  {
    if defaults == [] then tags
    else
      var next := if defaults[0] !in tags && |tags| < MaxHashtags then tags + [defaults[0]] else tags;
      var r := AddDefaults(next, defaults[1..]);
      assert r[..|tags|] == r[..|next|][..|tags|];
      assert forall x :: x in defaults[1..] ==> x in defaults;
      r
  }

  /** Every default is present afterwards when the found tags and the
      defaults together fit in 15. */
  lemma {:induction false} DefaultsAllAdded(tags: seq<string>, defaults: seq<string>)
    requires |tags| + |defaults| <= MaxHashtags
    ensures forall d :: d in defaults ==> d in AddDefaults(tags, defaults)
    decreases |defaults|
  {
    if defaults != [] {
      var next := if defaults[0] !in tags && |tags| < MaxHashtags then tags + [defaults[0]] else tags;
      DefaultsAllAdded(next, defaults[1..]);
      var r := AddDefaults(tags, defaults);
      assert r == AddDefaults(next, defaults[1..]);
      assert defaults[0] in next;
      assert r[..|next|] == next;
      assert defaults[0] in r[..|next|];
      forall d | d in defaults ensures d in r {
        if d != defaults[0] {
          assert d in defaults[1..];
        }
      }
    }
  }

  function Take(s: seq<string>, n: nat): (r: seq<string>)
    ensures |r| <= n && r <= s
  {
    if |s| <= n then s else s[..n]
  }

  /** The default-tag loop of `generate_hashtags`, over any list of
      defaults. */
  method AppendDefaults(found: seq<string>, defaults: seq<string>) returns (hashtags: seq<string>)
    ensures hashtags == AddDefaults(found, defaults)
  {
    hashtags := found;
    for i := 0 to |defaults|
      invariant AddDefaults(hashtags, defaults[i..]) == AddDefaults(found, defaults)
    {
      var tag := defaults[i];
      assert defaults[i..][1..] == defaults[i + 1..];
      if tag !in hashtags && |hashtags| < MaxHashtags {
        hashtags := hashtags + [tag];
      }
    }
  }

  /** The tag loop of `generate_hashtags` on the tags found in the reply. */
  method MergeHashtags(found: seq<string>) returns (hashtags: seq<string>)
    ensures hashtags == Take(AddDefaults(found, DefaultHashtags), MaxHashtags)
  {
    hashtags := AppendDefaults(found, DefaultHashtags);
    hashtags := Take(hashtags, MaxHashtags);
  }

  /** The tags `generate_hashtags` returns: `found` is what the tag
      pattern extracted from the reply, `None` when the call raised. */
  function HashtagsFor(found: Option<seq<string>>): (r: seq<string>)
    ensures |r| <= MaxHashtags
    ensures found.None? ==> r == DefaultHashtags
    ensures found.Some? && |found.value| <= MaxHashtags ==> found.value <= r
    ensures found.Some? ==> forall i :: |found.value| <= i < |r| ==> r[i] !in found.value
  {
    match found
    case None => DefaultHashtags
    case Some(tags) =>
      HashtagsMeaning(tags, DefaultHashtags);
      Take(AddDefaults(tags, DefaultHashtags), MaxHashtags)
  }

  /** `generate_hashtags`. */
  method GenerateHashtags(found: Option<seq<string>>) returns (hashtags: seq<string>)
    ensures hashtags == HashtagsFor(found)
  {
    if found.None? {
      return DefaultHashtags;
    }
    hashtags := MergeHashtags(found.value);
  }

  /** The tags `HashtagsFor(Some(found))` returns, with `defaults` the
      default list: at most 15 tags; the tags found come first in their
      order; anything after them is a default that was missing; when the
      tags found and the defaults fit in 15 (at most six tags found, for
      the nine defaults), every default is present. */
  lemma HashtagsMeaning(found: seq<string>, defaults: seq<string>)
    ensures var r := Take(AddDefaults(found, defaults), MaxHashtags);
      && |r| <= MaxHashtags
      && (|found| <= MaxHashtags ==> r[..|found|] == found)
      && (|found| > MaxHashtags ==> r == found[..MaxHashtags])
      && (forall i :: |found| <= i < |r| ==> r[i] in defaults && r[i] !in found)
      && (|found| + |defaults| <= MaxHashtags ==> forall d :: d in defaults ==> d in r)
  {
    var added := AddDefaults(found, defaults);
    if |found| + |defaults| <= MaxHashtags {
      DefaultsAllAdded(found, defaults);
    }
    if |found| <= MaxHashtags {
      assert Take(added, MaxHashtags) == added;
    }
  }
}
