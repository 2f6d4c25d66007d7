/** Listing enrichment bookkeeping (`ContentEnrichmentService`): which image
    a listing offers, how the enriched record and its metadata flags are
    put together, the Instagram post built from it, the batch loop that
    marks failures in place, and the statistics over a batch. The image
    service's answers (an overlay URL, a collage URL) and the text
    generator's replies are inputs. */
module Enrichment {
  import opened Common
  import opened TextGen

  /** `field in data and data[field]`. */
  predicate HasTruthy(data: Dict, field: string)
  {
    field in data && Truthy(data[field])
  }

  // ---------------------------------------------------------------------
  // Images.
  // ---------------------------------------------------------------------

  const PrimaryImageFields: seq<string> := ["image_url", "photo_url", "image_url1"]

  /** `_get_primary_image_url`: the first truthy of `image_url`, `photo_url`
      and `image_url1`, or `None`. */
  function PrimaryImageUrl(data: Dict): (r: Option<Value>)
    ensures r.None? <==> forall k :: 0 <= k < |PrimaryImageFields| ==> !HasTruthy(data, PrimaryImageFields[k])
    ensures r.Some? ==>
      exists k :: (0 <= k < |PrimaryImageFields| && HasTruthy(data, PrimaryImageFields[k]) &&
        r.value == data[PrimaryImageFields[k]] &&
        forall j :: 0 <= j < k ==> !HasTruthy(data, PrimaryImageFields[j]))
    ensures r.Some? ==> Truthy(r.value)
  {
    match FirstIndex(PrimaryImageFields, f => HasTruthy(data, f))
    case None => None
    case Some(k) => Some(data[PrimaryImageFields[k]])
  }

  /** The numbered image fields: `image_url` for 1, `image_url<i>` after. */
  function ImageField(i: nat): string
  {
    if i == 1 then "image_url" else "image_url" + NatToString(i)
  }

  /** The truthy values of image fields 1 to `n`, in field order. */
  function NumberedUrls(data: Dict, n: nat): (r: seq<Value>)
    ensures |r| <= n
    ensures forall v :: v in r ==> Truthy(v)
  {
    if n == 0 then []
    else NumberedUrls(data, n - 1) + (if HasTruthy(data, ImageField(n)) then [data[ImageField(n)]] else [])
  }

  /** The second loop: each field's value is added when truthy and not yet
      listed. */
  function AddIfNew(data: Dict, urls: seq<Value>, fields: seq<string>): seq<Value>
    decreases |fields|
  {
    if fields == [] then urls
    else
      var f := fields[0];
      AddIfNew(data, if HasTruthy(data, f) && data[f] !in urls then urls + [data[f]] else urls, fields[1..])
  }

  /** What `_get_all_image_urls` returns: at most 21 URLs, the twenty
      numbered fields and `photo_url`, since `image_url` is never listed
      twice; every URL is truthy. */
  function AllImageUrls(data: Dict): (r: seq<Value>)
    ensures |r| <= 21
    ensures forall v :: v in r ==> Truthy(v)
  {
    var urls := NumberedUrls(data, 20);
    assert ["image_url"][1..] == [];
    assert HasTruthy(data, "image_url") ==> data["image_url"] in urls by {
      if HasTruthy(data, "image_url") {
        NumberedUrlsHasFirst(data, 20);
      }
    }
    AddIfNew(data, urls, ["photo_url", "image_url"])
  }

  /** `_get_all_image_urls`. */
  method CollectImageUrls(data: Dict) returns (urls: seq<Value>)
    ensures urls == AllImageUrls(data)
  {
    urls := [];
    for i := 1 to 21
      invariant urls == NumberedUrls(data, i - 1)
    {
      var field := if i == 1 then "image_url" else "image_url" + NatToString(i);
      if field in data && Truthy(data[field]) {
        urls := urls + [data[field]];
      }
    }
    var others := ["photo_url", "image_url"];
    for j := 0 to |others|
      invariant AddIfNew(data, urls, others[j..]) == AllImageUrls(data)
    {
      var field := others[j];
      assert others[j..][1..] == others[j + 1..];
      if field in data && Truthy(data[field]) && data[field] !in urls {
        urls := urls + [data[field]];
      }
    }
  }

  lemma {:induction false} NumberedUrlsHasFirst(data: Dict, n: nat)
    requires n >= 1 && HasTruthy(data, "image_url")
    ensures data["image_url"] in NumberedUrls(data, n)
  {
    if n > 1 {
      NumberedUrlsHasFirst(data, n - 1);
    }
  }

  lemma NumberNotOne(i: nat)
    requires i != 1
    ensures NatToString(i) != "1"
  {
    if i < 10 {
      DigitCharValue(i);
      DigitCharValue(1);
    } else {
      assert |NatToString(i)| >= 2;
    }
  }

  /** None of the twenty numbered fields is `image_url1`. */
  lemma ImageFieldNotImageUrl1(i: nat)
    ensures ImageField(i) != "image_url1"
  {
    if i != 1 {
      NumberNotOne(i);
      var f := ImageField(i);
      assert f[9..] == NatToString(i);
      assert "image_url1"[9..] == "1";
    }
  }

  lemma {:induction false} NumberedUrlsIgnoreImageUrl1(data: Dict, v: Value, n: nat)
    ensures NumberedUrls(data["image_url1" := v], n) == NumberedUrls(data - {"image_url1"}, n)
    ensures NumberedUrls(data, n) == NumberedUrls(data - {"image_url1"}, n)
  {
    if n > 0 {
      NumberedUrlsIgnoreImageUrl1(data, v, n - 1);
      ImageFieldNotImageUrl1(n);
    }
  }

  /** The second loop reads only the fields it is given. */
  lemma {:induction false} AddIfNewFrame(d1: Dict, d2: Dict, urls: seq<Value>, fields: seq<string>)
    requires forall k :: 0 <= k < |fields| ==> (fields[k] in d1 <==> fields[k] in d2)
    requires forall k :: 0 <= k < |fields| && fields[k] in d1 ==> d1[fields[k]] == d2[fields[k]]
    ensures AddIfNew(d1, urls, fields) == AddIfNew(d2, urls, fields)
    decreases |fields|
  {
    if fields != [] {
      var f := fields[0];
      var next := if HasTruthy(d1, f) && d1[f] !in urls then urls + [d1[f]] else urls;
      AddIfNewFrame(d1, d2, next, fields[1..]);
    }
  }

  /** `image_url1` is never read: changing it does not change the URLs. */
  lemma AllImageUrlsIgnoreImageUrl1(data: Dict, v: Value)
    ensures AllImageUrls(data["image_url1" := v]) == AllImageUrls(data)
  {
    NumberedUrlsIgnoreImageUrl1(data, v, 20);
    AddIfNewFrame(data["image_url1" := v], data, NumberedUrls(data, 20), ["photo_url", "image_url"]);
  }

  // ---------------------------------------------------------------------
  // One listing.
  // ---------------------------------------------------------------------

  /** What the outside services answer for one listing: the model's replies
      for caption and summary, the tags found in its hashtag reply (`None`
      when a call raised), the overlay and collage URLs the image service
      returns (a falsy value when it produced none), and the clock. */
  datatype EnrichInputs = EnrichInputs(
    captionReply: Option<string>,
    summaryReply: Option<string>,
    hashtagsFound: Option<seq<string>>,
    overlayUrl: Value,
    collageUrl: Value,
    processedAt: string)

  function StrList(tags: seq<string>): (r: seq<Value>)
    ensures |r| == |tags|
    ensures forall i :: 0 <= i < |r| ==> r[i] == Str(tags[i])
  {
    seq(|tags|, i requires 0 <= i < |tags| => Str(tags[i]))
  }

  /** Whether the overlay is stored: there is a primary image and the image
      service returned a truthy URL. */
  predicate OverlayAdded(data: Dict, inputs: EnrichInputs)
  {
    PrimaryImageUrl(data).Some? && Truthy(inputs.overlayUrl)
  }

  /** Whether the collage is stored: it was asked for, at least two URLs
      exist, and the image service returned a truthy URL. */
  predicate CollageAdded(data: Dict, options: Dict, inputs: EnrichInputs)
  {
    Truthy(Get(options, "create_collage", Bool(false))) && |AllImageUrls(data)| >= 2 && Truthy(inputs.collageUrl)
  }

  /** `enrich_property_listing`: a copy of the listing with caption, summary
      and hashtags, the images the services produced, and the metadata.
      Only a fallback summary can raise. */
  function EnrichListing(data: Dict, options: Dict, inputs: EnrichInputs): (r: Result<Dict>)
    ensures r.Err? <==> GenerateSummary(data, inputs.summaryReply).Err?
    ensures r.Ok? ==> data.Keys <= r.value.Keys
    ensures r.Ok? ==> r.value.Keys - data.Keys <= GeneratedKeys
    ensures r.Ok? ==> ("enrichment_error" in r.value <==> "enrichment_error" in data)
    ensures r.Ok? ==> forall k :: k in data && k !in GeneratedKeys ==> k in r.value && r.value[k] == data[k]
    ensures r.Ok? ==>
      && "ai_caption" in r.value && r.value["ai_caption"] == Str(GenerateCaption(data, inputs.captionReply))
      && "ai_summary" in r.value && r.value["ai_summary"] == Str(GenerateSummary(data, inputs.summaryReply).value)
      && "ai_hashtags" in r.value && r.value["ai_hashtags"] == List(StrList(HashtagsFor(inputs.hashtagsFound)))
    ensures r.Ok? ==>
      && (OverlayAdded(data, inputs) ==> "ai_enriched_image" in r.value && r.value["ai_enriched_image"] == inputs.overlayUrl)
      && (!OverlayAdded(data, inputs) ==>
            ("ai_enriched_image" in r.value <==> "ai_enriched_image" in data)
            && ("ai_enriched_image" in data ==> r.value["ai_enriched_image"] == data["ai_enriched_image"]))
    ensures r.Ok? ==>
      && (CollageAdded(data, options, inputs) ==> "ai_collage_image" in r.value && r.value["ai_collage_image"] == inputs.collageUrl)
      && (!CollageAdded(data, options, inputs) ==>
            ("ai_collage_image" in r.value <==> "ai_collage_image" in data)
            && ("ai_collage_image" in data ==> r.value["ai_collage_image"] == data["ai_collage_image"]))
  {
    match GenerateSummary(data, inputs.summaryReply)
    case Err(e) => Err(e)
    case Ok(summary) =>
      Ok(EnrichedCopy(data, options, GenerateCaption(data, inputs.captionReply), summary,
                      HashtagsFor(inputs.hashtagsFound), OverlayAdded(data, inputs), inputs.overlayUrl,
                      CollageAdded(data, options, inputs), inputs.collageUrl, inputs.processedAt))
  }

  /** The enriched copy once the generated pieces are known. */
  function EnrichedCopy(data: Dict, options: Dict, caption: string, summary: string, tags: seq<string>,
                        overlay: bool, overlayUrl: Value, collage: bool, collageUrl: Value,
                        processedAt: string): (r: Dict)
    ensures data.Keys <= r.Keys && r.Keys - data.Keys <= GeneratedKeys
    ensures "enrichment_error" in r <==> "enrichment_error" in data
    ensures forall k :: k in data && k !in GeneratedKeys ==> k in r && r[k] == data[k]
    ensures "ai_caption" in r && r["ai_caption"] == Str(caption)
    ensures "ai_summary" in r && r["ai_summary"] == Str(summary)
    ensures "ai_hashtags" in r && r["ai_hashtags"] == List(StrList(tags))
    ensures overlay ==> "ai_enriched_image" in r && r["ai_enriched_image"] == overlayUrl
    ensures !overlay ==> ("ai_enriched_image" in r <==> "ai_enriched_image" in data)
                         && ("ai_enriched_image" in data ==> r["ai_enriched_image"] == data["ai_enriched_image"])
    ensures collage ==> "ai_collage_image" in r && r["ai_collage_image"] == collageUrl
    ensures !collage ==> ("ai_collage_image" in r <==> "ai_collage_image" in data)
                         && ("ai_collage_image" in data ==> r["ai_collage_image"] == data["ai_collage_image"])
  {
    var withText := WithText(data, caption, summary, tags);
    var withImages := WithImages(withText, overlay, overlayUrl, collage, collageUrl);
    withImages["enrichment_metadata" := Obj(Metadata(withImages, options, processedAt, |tags|))]
  }

  /** The keys the text generator fills. */
  const TextKeys: set<string> := {"ai_caption", "ai_summary", "ai_hashtags"}

  /** The copy with the generated caption, summary and tags stored. */
  function WithText(data: Dict, caption: string, summary: string, tags: seq<string>): (d: Dict)
    ensures d.Keys == data.Keys + TextKeys
    ensures forall k :: k in data && k !in TextKeys ==> d[k] == data[k]
    ensures d["ai_caption"] == Str(caption) && d["ai_summary"] == Str(summary)
    ensures d["ai_hashtags"] == List(StrList(tags))
  {
    data["ai_caption" := Str(caption)]["ai_summary" := Str(summary)]["ai_hashtags" := List(StrList(tags))]
  }

  /** The overlay and then the collage stored, each only when produced. */
  function WithImages(d: Dict, overlay: bool, overlayUrl: Value, collage: bool, collageUrl: Value): (r: Dict)
    ensures forall k :: k in r <==> k in d || (overlay && k == "ai_enriched_image") || (collage && k == "ai_collage_image")
    ensures forall k :: k in d && k != "ai_enriched_image" && k != "ai_collage_image" ==> r[k] == d[k]
    ensures overlay ==> r["ai_enriched_image"] == overlayUrl
    ensures !overlay && "ai_enriched_image" in d ==> r["ai_enriched_image"] == d["ai_enriched_image"]
    ensures collage ==> r["ai_collage_image"] == collageUrl
    ensures !collage && "ai_collage_image" in d ==> r["ai_collage_image"] == d["ai_collage_image"]
  {
    var withOverlay := if overlay then d["ai_enriched_image" := overlayUrl] else d;
    if collage then withOverlay["ai_collage_image" := collageUrl] else withOverlay
  }

  /** `enrichment_metadata`, read off the enriched copy. */
  function Metadata(d: Dict, options: Dict, processedAt: string, tagCount: nat): map<string, Value>
  {
    map[
      "processed_at" := Str(processedAt),
      "caption_style" := Get(options, "caption_style", Str("engaging")),
      "image_style" := Get(options, "image_style", Str("modern")),
      "has_enriched_image" := Bool("ai_enriched_image" in d),
      "has_collage" := Bool("ai_collage_image" in d),
      "hashtag_count" := Int(tagCount)]
  }

  /** The metadata flags: `has_enriched_image` holds exactly when an overlay
      was added now or the listing already carried one, and likewise for
      `has_collage`; the hashtag count is the number of tags stored. */
  lemma EnrichFlags(data: Dict, options: Dict, inputs: EnrichInputs)
    requires EnrichListing(data, options, inputs).Ok?
    ensures var e := EnrichListing(data, options, inputs).value;
      && "enrichment_metadata" in e && e["enrichment_metadata"].Obj?
      && var m := e["enrichment_metadata"].fields;
      && "has_enriched_image" in m && "has_collage" in m && "hashtag_count" in m
      && m["has_enriched_image"] == Bool(OverlayAdded(data, inputs) || "ai_enriched_image" in data)
      && m["has_collage"] == Bool(CollageAdded(data, options, inputs) || "ai_collage_image" in data)
      && m["has_enriched_image"] == Bool("ai_enriched_image" in e)
      && m["has_collage"] == Bool("ai_collage_image" in e)
      && "ai_hashtags" in e && e["ai_hashtags"].List?
      && m["hashtag_count"] == Int(|e["ai_hashtags"].items|)
  {
    CopyFlags(data, options, GenerateCaption(data, inputs.captionReply), GenerateSummary(data, inputs.summaryReply).value,
              HashtagsFor(inputs.hashtagsFound), OverlayAdded(data, inputs), inputs.overlayUrl,
              CollageAdded(data, options, inputs), inputs.collageUrl, inputs.processedAt);
  }

  /** The flags of the enriched copy describe the copy itself. */
  lemma CopyFlags(data: Dict, options: Dict, caption: string, summary: string, tags: seq<string>,
                  overlay: bool, overlayUrl: Value, collage: bool, collageUrl: Value, processedAt: string)
    ensures var e := EnrichedCopy(data, options, caption, summary, tags, overlay, overlayUrl, collage, collageUrl, processedAt);
      && "enrichment_metadata" in e && e["enrichment_metadata"].Obj?
      && var m := e["enrichment_metadata"].fields;
      && "has_enriched_image" in m && m["has_enriched_image"] == Bool("ai_enriched_image" in e)
      && "has_collage" in m && m["has_collage"] == Bool("ai_collage_image" in e)
      && "hashtag_count" in m && m["hashtag_count"] == Int(|tags|)
  {
    var withImages := WithImages(WithText(data, caption, summary, tags), overlay, overlayUrl, collage, collageUrl);
    var e := EnrichedCopy(data, options, caption, summary, tags, overlay, overlayUrl, collage, collageUrl, processedAt);
    assert e == withImages["enrichment_metadata" := Obj(Metadata(withImages, options, processedAt, |tags|))];
  }

  /** The keys enrichment may add. */
  const GeneratedKeys: set<string> :=
    {"ai_caption", "ai_summary", "ai_hashtags", "ai_enriched_image", "ai_collage_image", "enrichment_metadata"}

  // ---------------------------------------------------------------------
  // The Instagram post.
  // ---------------------------------------------------------------------

  datatype PostData = PostData(
    imageUrl: Value,
    caption: Value,
    listingUrl: Value,
    propertyTitle: Value,
    price: Value,
    source: Value,
    postType: string)

  /** `' '.join(tags)` on a value: a list of strings, or a string, whose
      characters are joined; anything else raises. */
  function JoinTags(v: Value): (r: Option<string>)
    ensures v.Null? || v.Bool? || v.Int? || v.Obj? ==> r.None?
    ensures v.Str? ==> r.Some?
    ensures v.List? ==> (r.Some? <==> forall i :: 0 <= i < |v.items| ==> v.items[i].Str?)
  {
    match v
    case List(items) =>
      if forall i :: 0 <= i < |items| ==> items[i].Str?
      then Some(Join(seq(|items|, i requires 0 <= i < |items| => items[i].s), " "))
      else None
    case Str(s) => Some(Join(seq(|s|, i requires 0 <= i < |s| => [s[i]]), " "))
    case _ => None
  }

  /** The image the post uses: the overlay if the key is present, else the
      collage if that key is present, else the primary image. */
  function PostImage(data: Dict): (r: Value)
    ensures r == Null <==>
      (("ai_enriched_image" in data && data["ai_enriched_image"] == Null)
       || ("ai_enriched_image" !in data && "ai_collage_image" in data && data["ai_collage_image"] == Null)
       || ("ai_enriched_image" !in data && "ai_collage_image" !in data
           && forall k :: 0 <= k < |PrimaryImageFields| ==> !HasTruthy(data, PrimaryImageFields[k])))
    ensures "ai_enriched_image" !in data && "ai_collage_image" !in data && r != Null ==> Truthy(r)
  {
    if "ai_enriched_image" in data then data["ai_enriched_image"]
    else if "ai_collage_image" in data then data["ai_collage_image"]
    else match PrimaryImageUrl(data) case Some(url) => url case None => Null
  }

  /** The one-character strings of `s`: what `list += s` appends. */
  function CharValues(s: string): (r: seq<Value>)
    ensures |r| == |s| && forall i :: 0 <= i < |s| ==> r[i] == Str([s[i]])
  {
    seq(|s|, i requires 0 <= i < |s| => Str([s[i]]))
  }

  /** `caption += '\n\n' + joined`: a string grows by the text, a list is
      extended by the text's characters, anything else raises. */
  function AppendTags(caption: Value, joined: string): (r: Result<Value>)
    ensures r.Ok? <==> caption.Str? || caption.List?
    ensures caption.Str? ==> r.Ok? && r.value.Str? && caption.s <= r.value.s
                             && r.value.s[|caption.s|..] == "\n\n" + joined
    ensures caption.List? ==> r.Ok? && r.value.List? && caption.items <= r.value.items
                              && |r.value.items| == |caption.items| + 2 + |joined|
  {
    match caption
    case Str(c) => Ok(Str(c + "\n\n" + joined))
    case List(items) => Ok(List(items + CharValues("\n\n" + joined)))
    case _ => Err(Internal("unsupported operand type(s) for +="))
  }

  /** `create_instagram_post_data`. Tags are appended only when truthy; the
      join raises on tags that are not strings, and the append raises on a
      caption that is neither a string nor a list. */
  function CreatePostData(data: Dict): (r: Result<PostData>)
    ensures var caption := Get(data, "ai_caption", Str(""));
            var tags := Get(data, "ai_hashtags", List([]));
      && (!Truthy(tags) ==> r.Ok? && r.value.caption == caption)
      && (Truthy(tags) ==> (r.Ok? <==> (caption.Str? || caption.List?) && JoinTags(tags).Some?))
      && (Truthy(tags) && r.Ok? && caption.Str? ==>
            r.value.caption == Str(caption.s + "\n\n" + JoinTags(tags).value))
      && (Truthy(tags) && r.Ok? && caption.List? ==>
            r.value.caption == List(caption.items + CharValues("\n\n" + JoinTags(tags).value)))
    ensures r.Ok? ==>
      && r.value.imageUrl == PostImage(data)
      && r.value.listingUrl == Get(data, "listing_url", Str(""))
      && r.value.propertyTitle == Get(data, "title", Str(""))
      && r.value.price == Get(data, "price", Str(""))
      && r.value.source == Get(data, "source", Str("unknown"))
      && r.value.postType == "property_listing"
  {
    var caption := Get(data, "ai_caption", Str(""));
    var hashtags := Get(data, "ai_hashtags", List([]));
    var captionOut: Result<Value> :=
      if !Truthy(hashtags) then Ok(caption)
      else match JoinTags(hashtags)
        case Some(joined) => AppendTags(caption, joined)
        case None => Err(Internal("sequence item: expected str instance"));
    match captionOut
    case Err(e) => Err(e)
    case Ok(c) =>
      Ok(PostData(PostImage(data), c, Get(data, "listing_url", Str("")), Get(data, "title", Str("")),
                  Get(data, "price", Str("")), Get(data, "source", Str("unknown")), "property_listing"))
  }

  /** A freshly enriched record posts its overlay when one was added, else
      its collage, and its caption carries the stored tags. */
  lemma PostFromEnriched(data: Dict, options: Dict, inputs: EnrichInputs)
    requires EnrichListing(data, options, inputs).Ok?
    requires "ai_enriched_image" !in data && "ai_collage_image" !in data
    ensures var e := EnrichListing(data, options, inputs).value;
      && (OverlayAdded(data, inputs) ==> PostImage(e) == inputs.overlayUrl)
      && (!OverlayAdded(data, inputs) && CollageAdded(data, options, inputs) ==> PostImage(e) == inputs.collageUrl)
  {
  }

  // ---------------------------------------------------------------------
  // Batches and statistics.
  // ---------------------------------------------------------------------

  function ErrorText(e: Error): string
  {
    match e
    case BadRequest(m) => m
    case Internal(m) => m
  }

  /** One turn of the batch loop: the enriched copy, or the listing itself
      marked with `enrichment_error`. */
  function EnrichOrMark(listing: Dict, options: Dict, inputs: EnrichInputs): Dict
  {
    Marked(listing, EnrichListing(listing, options, inputs))
  }

  /** The listing's entry for an enrichment outcome. */
  function Marked(listing: Dict, outcome: Result<Dict>): Dict
  {
    match outcome
    case Ok(e) => e
    case Err(err) => listing["enrichment_error" := Str(ErrorText(err))]
  }

  /** `batch_enrich_listings`: one entry per listing, in order. */
  method BatchEnrich(listings: seq<Dict>, options: Dict, inputs: seq<EnrichInputs>) returns (r: seq<Dict>)
    requires |inputs| == |listings|
    ensures |r| == |listings|
    ensures forall i :: 0 <= i < |r| ==> r[i] == EnrichOrMark(listings[i], options, inputs[i])
  {
    r := [];
    for i := 0 to |listings|
      invariant |r| == i
      invariant forall k :: 0 <= k < i ==> r[k] == EnrichOrMark(listings[k], options, inputs[k])
    {
      var entry := EnrichOne(listings[i], options, inputs[i]);
      r := r + [entry];
    }
  }

  /** The body of the batch loop: enrich, or on an exception mark the
      listing with the error text. */
  method EnrichOne(listing: Dict, options: Dict, inputs: EnrichInputs) returns (entry: Dict)
    ensures entry == EnrichOrMark(listing, options, inputs)
  {
    var outcome := EnrichListing(listing, options, inputs);
    if outcome.Ok? {
      entry := outcome.value;
    } else {
      entry := listing;
      entry := entry["enrichment_error" := Str(ErrorText(outcome.error))];
    }
  }

  /** Number of records holding `key`. */
  function CountWith(ls: seq<Dict>, key: string): (n: nat)
    ensures n <= |ls|
  {
    if ls == [] then 0 else CountWith(ls[..|ls| - 1], key) + (if key in ls[|ls| - 1] then 1 else 0)
  }

  datatype EnrichmentStats = EnrichmentStats(
    totalListings: nat,
    successfulEnrichments: nat,
    successRate: real,
    hasEnrichedImages: nat,
    hasCollages: nat,
    hasErrors: nat,
    errorRate: real)

  /** `get_enrichment_stats`. */
  method GetEnrichmentStats(ls: seq<Dict>) returns (stats: EnrichmentStats)
    ensures stats.totalListings == |ls|
    ensures stats.hasErrors == CountWith(ls, "enrichment_error")
    ensures stats.successfulEnrichments + stats.hasErrors == stats.totalListings
    ensures stats.hasEnrichedImages == CountWith(ls, "ai_enriched_image")
    ensures stats.hasCollages == CountWith(ls, "ai_collage_image")
    ensures |ls| == 0 ==> stats.successRate == 0.0 && stats.errorRate == 0.0
    ensures |ls| > 0 ==> stats.successRate == stats.successfulEnrichments as real / |ls| as real
    ensures |ls| > 0 ==> stats.errorRate == stats.hasErrors as real / |ls| as real
    ensures |ls| > 0 ==> stats.successRate + stats.errorRate == 1.0
  {
    var successful, images, collages, errors := 0, 0, 0, 0;
    for i := 0 to |ls|
      invariant errors == CountWith(ls[..i], "enrichment_error")
      invariant successful + errors == i
      invariant images == CountWith(ls[..i], "ai_enriched_image")
      invariant collages == CountWith(ls[..i], "ai_collage_image")
    {
      assert ls[..i + 1][..i] == ls[..i];
      if "enrichment_error" !in ls[i] {
        successful := successful + 1;
      } else {
        errors := errors + 1;
      }
      if "ai_enriched_image" in ls[i] {
        images := images + 1;
      }
      if "ai_collage_image" in ls[i] {
        collages := collages + 1;
      }
    }
    assert ls[..|ls|] == ls;
    var total := |ls|;
    var successRate := if total > 0 then successful as real / total as real else 0.0;
    var errorRate := if total > 0 then errors as real / total as real else 0.0;
    if total > 0 {
      RatesSumToOne(successful, errors, total);
    }
    stats := EnrichmentStats(total, successful, successRate, images, collages, errors, errorRate);
  }

  lemma RatesSumToOne(a: nat, b: nat, total: nat)
    requires total > 0 && a + b == total
    ensures a as real / total as real + b as real / total as real == 1.0
  {
    assert a as real / total as real + b as real / total as real == (a + b) as real / total as real;
  }

  /** Number of outcomes that are exceptions. */
  function Failures(outcomes: seq<Result<Dict>>): (n: nat)
    ensures n <= |outcomes|
  {
    if outcomes == [] then 0
    else Failures(outcomes[..|outcomes| - 1]) + (if outcomes[|outcomes| - 1].Err? then 1 else 0)
  }

  /** On listings not yet marked, the error count of a batch's statistics is
      the number of listings whose enrichment raised: entry `i` of a batch
      is `Marked(listings[i], outcomes[i])` with `outcomes[i]` the result of
      `EnrichListing`, which never adds the mark itself. */
  lemma {:induction false} BatchErrorsCounted(listings: seq<Dict>, outcomes: seq<Result<Dict>>, r: seq<Dict>)
    requires |outcomes| == |listings| == |r|
    requires forall i :: 0 <= i < |r| ==> r[i] == Marked(listings[i], outcomes[i])
    requires forall i :: 0 <= i < |listings| ==> "enrichment_error" !in listings[i]
    requires forall i :: 0 <= i < |outcomes| ==> outcomes[i].Ok? ==> "enrichment_error" !in outcomes[i].value
    ensures CountWith(r, "enrichment_error") == Failures(outcomes)
  {
    if r != [] {
      var n := |r| - 1;
      BatchErrorsCounted(listings[..n], outcomes[..n], r[..n]);
      MarkedOnError(listings[n], outcomes[n]);
    }
  }

  /** An unmarked listing comes out of the batch marked exactly when its
      enrichment raised. */
  lemma MarkedExactlyOnFailure(listing: Dict, options: Dict, inputs: EnrichInputs)
    requires "enrichment_error" !in listing
    ensures "enrichment_error" in EnrichOrMark(listing, options, inputs)
            <==> EnrichListing(listing, options, inputs).Err?
  {
    MarkedOnError(listing, EnrichListing(listing, options, inputs));
  }

  lemma MarkedOnError(listing: Dict, outcome: Result<Dict>)
    requires "enrichment_error" !in listing
    requires outcome.Ok? ==> "enrichment_error" !in outcome.value
    ensures "enrichment_error" in Marked(listing, outcome) <==> outcome.Err?
  {
  }
}
