/** The `LoadMask` transform of diffengine/datasets/transforms/loading.py:
    reads the image size from the results dict, builds a mask of the
    configured mode and stores it (and, for bbox masks, the box) back into
    the same dict. */
module Loading {
  import opened Errors
  import opened Bbox
  import opened Mask

  /** The values of a results dict this transform reads or writes. */
  datatype Entry =
    | ImageEntry(height: nat, width: nat)  // a PIL image: only its size is read
    | MaskEntry(mask: array3<uint8>)
    | BoxEntry(box: Box)
    | OtherEntry(tag: int)                 // anything else a pipeline put there

  /** The results dict, updated in place. */
  class Results {
    var entries: map<string, Entry>

    constructor (entries: map<string, Entry>)
      ensures this.entries == entries
    {
      this.entries := entries;
    }
  }

  const ImgKey := "img"
  const MaskKey := "mask"
  const MaskBboxKey := "mask_bbox"

  /** The keyword parameters of random_bbox besides img_shape. */
  const BboxKeywords: set<string> := {"max_bbox_shape", "max_bbox_delta", "min_margin"}

  function KeywordOr(config: map<string, Arg>, key: string, default: Arg): Arg {
    if key in config then config[key] else default
  }

  /** Binding `random_bbox(img_shape=..., **config)`: max_bbox_shape is
      required, the other two have defaults, and any other key (img_shape
      included) is a TypeError. Yields (max_bbox_shape, max_bbox_delta,
      min_margin). */
  function BindBboxKeywords(config: map<string, Arg>): (r: Result<(Arg, Arg, Arg)>)
    ensures r.Ok? <==> "max_bbox_shape" in config && config.Keys <= BboxKeywords
    ensures r.Err? ==> r.error == BadKeywordArguments
    ensures r.Ok? ==> r.value.0 == config["max_bbox_shape"]
    ensures r.Ok? && "max_bbox_delta" in config ==> r.value.1 == config["max_bbox_delta"]
    ensures r.Ok? && "max_bbox_delta" !in config ==> r.value.1 == DefaultDelta
    ensures r.Ok? && "min_margin" in config ==> r.value.2 == config["min_margin"]
    ensures r.Ok? && "min_margin" !in config ==> r.value.2 == DefaultMargin
  {
    if "max_bbox_shape" in config && config.Keys <= BboxKeywords then
      Ok((config["max_bbox_shape"], KeywordOr(config, "max_bbox_delta", DefaultDelta),
          KeywordOr(config, "min_margin", DefaultMargin)))
    else Err(BadKeywordArguments)
  }

  /** The image size the transform reads from the results dict, as
      (height, width); the image must be present and be an image. */
  function ImageShape(entries: map<string, Entry>): (r: Result<(nat, nat)>)
    ensures r.Ok? <==> ImgKey in entries && entries[ImgKey].ImageEntry?
    ensures r.Ok? ==> r.value == (entries[ImgKey].height, entries[ImgKey].width)
    ensures ImgKey !in entries ==> r == Err(MissingKey(ImgKey))
    ensures ImgKey in entries && !entries[ImgKey].ImageEntry? ==> r == Err(NotAnImage)
  {
    if ImgKey !in entries then Err(MissingKey(ImgKey))
    else match entries[ImgKey]
      case ImageEntry(h, w) => Ok((h, w))
      case _ => Err(NotAnImage)
  }

  /** The draws fit whatever random_bbox call the bbox mode would make. */
  predicate BboxDrawsFit(config: map<string, Arg>, height: nat, width: nat, d: Draws) {
    var args := BindBboxKeywords(config);
    args.Ok? ==> RandomBboxDrawsFit(height, width, args.value.0, args.value.1, args.value.2, d)
  }

  /** The box the bbox mode draws for an image of the given size: the
      configured keywords bound, then random_bbox. A keyword error comes
      first; a drawn box is at least 1 x 1 and no larger than the image. */
  function BboxOutcome(config: map<string, Arg>, height: nat, width: nat, d: Draws): (r: Result<Box>)
    requires BboxDrawsFit(config, height, width, d)
    ensures BindBboxKeywords(config).Err? ==> r == Err(BadKeywordArguments)
    ensures r.Ok? ==> "max_bbox_shape" in config
    ensures r.Ok? ==> 1 <= r.value.h <= height && 1 <= r.value.w <= width
  {
    match BindBboxKeywords(config)
    case Err(e) => Err(e)
    case Ok(args) => RandomBbox(height, width, args.0, args.1, args.2, d)
  }

  predicate TransformDrawsFit(mode: string, config: map<string, Arg>, entries: map<string, Entry>, d: Draws) {
    var shape := ImageShape(entries);
    mode == "bbox" && shape.Ok? ==> BboxDrawsFit(config, shape.value.0, shape.value.1, d)
  }

  /** What one call of transform does to the results dict. */
  datatype Plan =
    | WriteBbox(box: Box, height: nat, width: nat)  // store the box and its mask
    | WriteGenerated                                // store the generator's mask
    | Fail(error: Error)                            // raise, leaving the dict alone

  /** The mask generators of the irregular and ff modes are not part of this
      model: `generated` is the error the selected one raised, if any. */
  function TransformPlan(mode: string, config: map<string, Arg>, entries: map<string, Entry>,
                         d: Draws, generated: Option<Error>): (r: Plan)
    requires TransformDrawsFit(mode, config, entries, d)
    ensures ImageShape(entries).Err? ==> r == Fail(ImageShape(entries).error)
    ensures ImageShape(entries).Ok? && mode == "bbox" && BindBboxKeywords(config).Err? ==>
              r == Fail(BadKeywordArguments)
    ensures r.WriteBbox? ==> mode == "bbox" && ImageShape(entries) == Ok((r.height, r.width))
    ensures r.WriteGenerated? <==>
              ImageShape(entries).Ok? && (mode == "irregular" || mode == "ff") && generated.None?
    ensures ImageShape(entries).Ok? && (mode == "irregular" || mode == "ff") && generated.Some? ==>
              r == Fail(generated.value)
    ensures ImageShape(entries).Ok? && mode != "bbox" && mode != "irregular" && mode != "ff" ==>
              r == Fail(ModeNotImplemented(mode))
  {
    match ImageShape(entries)
    case Err(e) => Fail(e)
    case Ok((h, w)) =>
      if mode == "bbox" then
        match BboxOutcome(config, h, w, d)
        case Err(e) => Fail(e)
        case Ok(box) => WriteBbox(box, h, w)
      else if mode == "irregular" || mode == "ff" then
        if generated.Some? then Fail(generated.value) else WriteGenerated
      else Fail(ModeNotImplemented(mode))
  }

  /** Every mode other than bbox, irregular and ff (the documented "set"
      among them) raises NotImplementedError once the image size is read. */
  lemma UnknownModeNotImplemented(mode: string, config: map<string, Arg>, entries: map<string, Entry>,
                                  d: Draws, generated: Option<Error>)
    requires ImageShape(entries).Ok?
    requires mode != "bbox" && mode != "irregular" && mode != "ff"
    ensures TransformPlan(mode, config, entries, d, generated) == Fail(ModeNotImplemented(mode))
    ensures ExceptionClass(TransformPlan(mode, config, entries, d, generated).error) == "NotImplementedError"
  {
  }

  /** In bbox mode the transform stores exactly the box random_bbox draws
      for the image size and the configured keywords, and fails exactly when
      binding the keywords or random_bbox fails. */
  lemma BboxModeUsesRandomBbox(config: map<string, Arg>, entries: map<string, Entry>, d: Draws)
    requires ImageShape(entries).Ok? && BindBboxKeywords(config).Ok?
    requires TransformDrawsFit("bbox", config, entries, d)
    ensures var (h, w) := ImageShape(entries).value;
            var args := BindBboxKeywords(config).value;
            var drawn := RandomBbox(h, w, args.0, args.1, args.2, d);
            && (TransformPlan("bbox", config, entries, d, None).WriteBbox? <==> drawn.Ok?)
            && (drawn.Ok? ==> TransformPlan("bbox", config, entries, d, None) == WriteBbox(drawn.value, h, w))
            && (drawn.Err? ==> TransformPlan("bbox", config, entries, d, None) == Fail(drawn.error))
  {
  }

  /** A config of ints only reaches random_bbox as square pairs, with the
      defaults 40 and 20 for the keywords it leaves out. */
  lemma IntConfigBecomesSquarePairs(config: map<string, Arg>, s: int)
    requires config == map["max_bbox_shape" := IntArg(s)]
    ensures BindBboxKeywords(config).Ok?
    ensures var args := BindBboxKeywords(config).value;
            Normalise(args.0, args.1, args.2) == Ok(Params(Pair(s, s), Pair(40, 40), Pair(20, 20)))
  {
    assert config.Keys == {"max_bbox_shape"};
  }

  function GeneratorError(generated: Result<array3<uint8>>): Option<Error> {
    if generated.Err? then Some(generated.error) else None
  }

  class LoadMask {
    const maskMode: string
    const maskConfig: map<string, Arg>

    /** A missing mode becomes "bbox" and a missing config the empty dict. */
    constructor (maskMode: Option<string>, maskConfig: Option<map<string, Arg>>)
      ensures this.maskMode == if maskMode.Some? then maskMode.value else "bbox"
      ensures this.maskConfig == if maskConfig.Some? then maskConfig.value else map[]
    {
      this.maskMode := if maskMode.Some? then maskMode.value else "bbox";
      this.maskConfig := if maskConfig.Some? then maskConfig.value else map[];
    }

    /** Builds the mask of the configured mode for the image in `results`
        and stores it there. `d` holds random_bbox's draws; `generated` is the
        outcome of the irregular or ff generator. The result is the error
        raised, if any; the dict is changed only when nothing is raised. */
    method Transform(results: Results, d: Draws, generated: Result<array3<uint8>>) returns (err: Option<Error>)
      requires TransformDrawsFit(maskMode, maskConfig, results.entries, d)
      modifies results
      ensures match TransformPlan(maskMode, maskConfig, old(results.entries), d, GeneratorError(generated))
              case Fail(e) =>
                err == Some(e) && results.entries == old(results.entries)
              case WriteGenerated =>
                err == None && results.entries == old(results.entries)[MaskKey := MaskEntry(generated.value)]
              case WriteBbox(box, h, w) =>
                && err == None
                && MaskKey in results.entries && results.entries[MaskKey].MaskEntry?
                && var m := results.entries[MaskKey].mask;
                   && results.entries == old(results.entries)[MaskBboxKey := BoxEntry(box)][MaskKey := MaskEntry(m)]
                   && fresh(m)
                   && m.Length0 == h && m.Length1 == w && m.Length2 == 1
                   && forall y, x :: 0 <= y < h && 0 <= x < w ==> m[y, x, 0] == MaskValue(h, w, box, y, x)
    {
      var shape := ImageShape(results.entries);
      if shape.Err? {
        return Some(shape.error);
      }
      var (height, width) := shape.value;
      if maskMode == "bbox" {
        var box := BboxOutcome(maskConfig, height, width, d);
        if box.Err? {
          return Some(box.error);
        }
        var mask := Bbox2Mask(height, width, box.value);
        results.entries := results.entries[MaskBboxKey := BoxEntry(box.value)];
        results.entries := results.entries[MaskKey := MaskEntry(mask)];
      } else if maskMode == "irregular" || maskMode == "ff" {
        if generated.Err? {
          return Some(generated.error);
        }
        results.entries := results.entries[MaskKey := MaskEntry(generated.value)];
      } else {
        return Some(ModeNotImplemented(maskMode));
      }
      return None;
    }
  }
}
