/**
 * Which image the forwarder sends for a photo or a sticker attachment: the
 * photo size with the largest area (the first such size on a tie, as `max`
 * keeps the first maximum), and the last image of a sticker.
 */
module Attachments {
  import opened Wrappers
  import opened PyJson

  /** What one attachment leads to: nothing, an image sent by URL, or an exception. */
  datatype Pick = NoImage | SendImage(url: Json) | Raises

  /**
   * `x.get("width", 0) * x.get("height", 0)`; `None` when `x` is not a dict or a
   * dimension is not a number.
   */
  function Area(x: Json): (r: Option<int>)
    ensures r.Some? ==> x.JObj?
  {
    match (Get(x, "width", JInt(0)), Get(x, "height", JInt(0)))
    case (Some(w), Some(h)) =>
      (match (NumberValue(w), NumberValue(h))
       case (Some(a), Some(b)) => Some(a * b)
       case _ => None)
    case _ => None
  }

  /**
   * The index `max(sizes, key=area)` returns: every area is computed, and a later
   * size replaces the best so far only with a strictly larger area.
   */
  function LargestIndex(sizes: seq<Json>): (r: Option<nat>)
    requires |sizes| >= 1
    ensures r.Some? ==> r.value < |sizes| && Area(sizes[r.value]).Some?
  {
    if |sizes| == 1 then
      if Area(sizes[0]).Some? then Some(0) else None
    else
      var init := sizes[..|sizes| - 1];
      Extend(LargestIndex(init), init, sizes[|sizes| - 1])
  }

  /** One step of `max`: the best index of `init` against the next size `x`. */
  function Extend(best: Option<nat>, init: seq<Json>, x: Json): (r: Option<nat>)
    requires best.Some? ==> best.value < |init| && Area(init[best.value]).Some?
    ensures r.Some? ==> r.value <= |init| && Area((init + [x])[r.value]).Some?
  {
    match best
    case None => None
    case Some(b) =>
      match Area(x)
      case None => None
      case Some(a) => if a > Area(init[b]).value then Some(|init|) else Some(b)
  }

  /** The photo branch of `process_attachments`. */
  function PhotoPick(attach: Json): (r: Pick)
    ensures r.SendImage? ==> Truthy(r.url)
  {
    match Get(attach, "photo", JObj(map[]))
    case None => Raises
    case Some(photo) =>
      match Get(photo, "sizes", JArr([]))
      case None => Raises
      case Some(sizes) =>
        if !Truthy(sizes) then NoImage
        else if !sizes.JArr? then Raises
        else
          match LargestIndex(sizes.items)
          case None => Raises
          case Some(i) =>
            var url := Get(sizes.items[i], "url", JStr("")).value;
            if Truthy(url) then SendImage(url) else NoImage
  }

  /** The sticker branch of `process_attachments`: `images[-1].get("url", "")`. */
  function StickerPick(attach: Json): (r: Pick)
    ensures r.SendImage? ==> Truthy(r.url)
  {
    match Get(attach, "sticker", JObj(map[]))
    case None => Raises
    case Some(sticker) =>
      match Get(sticker, "images", JArr([]))
      case None => Raises
      case Some(images) =>
        if !Truthy(images) then NoImage
        else if !images.JArr? then Raises
        else
          match Get(images.items[|images.items| - 1], "url", JStr(""))
          case None => Raises
          case Some(url) => if Truthy(url) then SendImage(url) else NoImage
  }

  /** The image an attachment leads to, by its `type`; other types send no image. */
  function ImagePick(attach: Json): (r: Pick)
    ensures r.SendImage? ==> Truthy(r.url)
  {
    match Get(attach, "type", JStr(""))
    case None => Raises
    case Some(kind) =>
      if kind == JStr("photo") then PhotoPick(attach)
      else if kind == JStr("sticker") then StickerPick(attach)
      else NoImage
  }

  /**
   * `max(sizes, key=area)` succeeds exactly when every area can be computed; the
   * size it picks has the largest area, and every size before it a smaller one,
   * so it is the first of the largest.
   */
  lemma {:induction false} LargestIndexIsFirstMax(sizes: seq<Json>)
    requires |sizes| >= 1
    ensures LargestIndex(sizes).Some? <==> forall j :: 0 <= j < |sizes| ==> Area(sizes[j]).Some?
    ensures LargestIndex(sizes).Some? ==>
      var b := LargestIndex(sizes).value;
      (forall j :: 0 <= j < |sizes| ==> Area(sizes[j]).value <= Area(sizes[b]).value) &&
      (forall j :: 0 <= j < b ==> Area(sizes[j]).value < Area(sizes[b]).value)
    decreases |sizes|
  {
    if |sizes| > 1 {
      var init, x := sizes[..|sizes| - 1], sizes[|sizes| - 1];
      assert sizes == init + [x];
      LargestIndexIsFirstMax(init);
      LargestIndexSnoc(init, x);
      assert forall j :: 0 <= j < |init| ==> sizes[j] == init[j];
    }
  }

  /** Appending a size compares it with the best so far only. */
  lemma LargestIndexSnoc(sizes: seq<Json>, x: Json)
    requires |sizes| >= 1
    ensures LargestIndex(sizes + [x]) == Extend(LargestIndex(sizes), sizes, x)
  {
    var s2 := sizes + [x];
    assert s2[..|s2| - 1] == sizes;
    assert s2[|s2| - 1] == x;
  }

  /** A size appended with a strictly larger area than every earlier one is chosen. */
  lemma LargerSizeWins(sizes: seq<Json>, x: Json)
    requires |sizes| >= 1 && LargestIndex(sizes).Some? && Area(x).Some?
    requires Area(x).value > Area(sizes[LargestIndex(sizes).value]).value
    ensures LargestIndex(sizes + [x]) == Some(|sizes|)
  {
    LargestIndexSnoc(sizes, x);
  }

  /** A size appended with an area no larger than the best so far leaves the choice as it was. */
  lemma TieKeepsFirst(sizes: seq<Json>, x: Json)
    requires |sizes| >= 1 && LargestIndex(sizes).Some? && Area(x).Some?
    requires Area(x).value <= Area(sizes[LargestIndex(sizes).value]).value
    ensures LargestIndex(sizes + [x]) == LargestIndex(sizes)
  {
    LargestIndexSnoc(sizes, x);
  }

  /** A photo sends the URL of the size `max` picks, when that URL is non-empty. */
  lemma PhotoTakesLargest(sizes: seq<Json>, rest: map<string, Json>)
    requires |sizes| >= 1 && LargestIndex(sizes).Some?
    ensures var best := sizes[LargestIndex(sizes).value];
            best.JObj? &&
            var url := Get(best, "url", JStr("")).value;
            PhotoPick(JObj(rest["photo" := JObj(map["sizes" := JArr(sizes)])])) ==
              if Truthy(url) then SendImage(url) else NoImage
  {
    var i := LargestIndex(sizes).value;
    assert Area(sizes[i]).Some?;
    var photo := JObj(map["sizes" := JArr(sizes)]);
    var attach := JObj(rest["photo" := photo]);
    assert Get(attach, "photo", JObj(map[])) == Some(photo);
    assert Get(photo, "sizes", JArr([])) == Some(JArr(sizes));
  }

  /** The sticker image sent is the one appended last, whatever came before. */
  lemma StickerTakesLast(images: seq<Json>, img: Json, rest: map<string, Json>)
    requires img.JObj? && "url" in img.fields && Truthy(img.fields["url"])
    ensures StickerPick(JObj(rest["sticker" := JObj(map["images" := JArr(images + [img])])])) ==
            SendImage(img.fields["url"])
  {
    assert (images + [img])[|images|] == img;
  }
}
