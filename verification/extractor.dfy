/** The extractor: the slides of a presentation and the registry of the
    layers made from them, keyed by layer id. */
module Extraction {
  import opened Wrappers
  import opened Shapes
  import opened Layers

  /** `slides[n - 1]` with Python's indexing: slide numbers 0 and below
      count from the end of the deck. */
  function SlideAt(slides: seq<Slide>, n: int): (r: Result<Slide, Exception>)
    ensures r.Success? <==> -|slides| < n <= |slides|
    ensures 1 <= n <= |slides| ==> r == Success(slides[n - 1])
    ensures -|slides| < n <= 0 ==> r == Success(slides[|slides| + n - 1])
    ensures r.Failure? ==> r.error == IndexError
  {
    if 0 <= n - 1 < |slides| then Success(slides[n - 1])
    else if -|slides| <= n - 1 < 0 then Success(slides[|slides| + (n - 1)])
    else Failure(IndexError)
  }

  /** Slide number 0 is the last slide. */
  lemma SlideZeroIsLast(slides: seq<Slide>)
    requires slides != []
    ensures SlideAt(slides, 0) == Success(slides[|slides| - 1])
  {}

  /** The registry's keys after `slide_to_layer(n)`, or the exception it
      raises: the layer is built, processed and registered under its id,
      which must be new. */
  function RegisterOne(keys: set<string>, slides: seq<Slide>, amap: AnatomicalMap, layerClass: bool, n: int): (r: Result<set<string>, Exception>)
    ensures r.Success? ==> keys <= r.value && |r.value - keys| <= 1
  {
    var slide :- SlideAt(slides, n);
    if !layerClass then Success(keys)
    else
      var built :- BuildLayer(amap, slide, n);
      if built.0.layerId in keys then Failure(KeyError)
      else Success(keys + {built.0.layerId})
  }

  /** Registering a layer whose id is already taken raises KeyError; a new
      id is added. */
  lemma RegisterOneOutcome(keys: set<string>, slides: seq<Slide>, amap: AnatomicalMap, n: int)
    requires SlideAt(slides, n).Success?
    requires BuildLayer(amap, SlideAt(slides, n).value, n).Success?
    ensures var id := BuildLayer(amap, SlideAt(slides, n).value, n).value.0.layerId;
            (RegisterOne(keys, slides, amap, true, n) == Failure(KeyError) <==> id in keys) &&
            (id !in keys ==> RegisterOne(keys, slides, amap, true, n) == Success(keys + {id}))
  {}

  /** The registry's keys after `slide_to_layer` over the numbers, and the
      exception that stopped the loop, if any. */
  function RegisterAll(keys: set<string>, slides: seq<Slide>, amap: AnatomicalMap, layerClass: bool, numbers: seq<int>): (r: (set<string>, Option<Exception>))
    ensures keys <= r.0
    decreases numbers
  {
    if numbers == [] then (keys, None)
    else
      match RegisterOne(keys, slides, amap, layerClass, numbers[0])
      case Failure(e) => (keys, Some(e))
      case Success(keys') => RegisterAll(keys', slides, amap, layerClass, numbers[1..])
  }

  /** Which slides `slides_to_layers` converts. */
  datatype SlideRange = AllSlides | OneSlide(n: int) | SlideList(numbers: seq<int>)

  /** The slide numbers lo, lo + 1, ..., hi. */
  function Numbers(lo: int, hi: int): (r: seq<int>)
    ensures |r| == if lo <= hi then hi - lo + 1 else 0
    ensures forall i :: 0 <= i < |r| ==> r[i] == lo + i
    decreases hi - lo
  {
    if lo > hi then [] else [lo] + Numbers(lo + 1, hi)
  }

  function RangeNumbers(range: SlideRange, count: nat): seq<int>
  {
    match range
    case AllSlides => Numbers(1, count)
    case OneSlide(n) => [n]
    case SlideList(numbers) => numbers
  }

  /** The default ids of slides lo..hi. */
  function DefaultIds(lo: int, hi: int): set<string>
  {
    set i | lo <= i <= hi :: DefaultId(i)
  }

  /** The default id of the next slide is new. */
  lemma DefaultIdsGrow(k: nat)
    ensures DefaultId(k + 1) !in DefaultIds(1, k)
    ensures DefaultIds(1, k) + {DefaultId(k + 1)} == DefaultIds(1, k + 1)
  {
    if DefaultId(k + 1) in DefaultIds(1, k) {
      var i :| 1 <= i <= k && DefaultId(i) == DefaultId(k + 1);
      DefaultIdInjective(i, k + 1);
    }
  }

  /** A deck in which no slide has a layer directive registers one layer
      per slide, under the default ids `layer-01`, `layer-02`, ...: they
      never collide, so converting all slides cannot raise KeyError. */
  lemma {:induction false} DefaultLayersRegister(slides: seq<Slide>, amap: AnatomicalMap, k: nat)
    requires forall i :: 0 <= i < |slides| ==> !HasDirective(slides[i])
    requires k <= |slides|
    ensures RegisterAll(DefaultIds(1, k), slides, amap, true, Numbers(k + 1, |slides|))
         == (DefaultIds(1, |slides|), None)
    decreases |slides| - k
  {
    if k < |slides| {
      var n := k + 1;
      var slide := slides[n - 1];
      NoDirectiveDefaults(slide, n);
      BuildLayerFails(amap, slide, n);
      DefaultIdsGrow(k);
      assert Numbers(k + 1, |slides|)[1..] == Numbers(n + 1, |slides|);
      DefaultLayersRegister(slides, amap, n);
    }
  }

  class Extractor {
    const slides: seq<Slide>
    const slideWidth: int
    const slideHeight: int
    const anatomicalMap: AnatomicalMap
    /** Whether the extractor was given a layer class at all. */
    const layerClass: bool
    var layers: map<string, Layer>

    /** Every layer is registered under its own id. */
    predicate Valid()
      reads this
    {
      forall k | k in layers :: layers[k].header.layerId == k
    }

    constructor(slides: seq<Slide>, width: int, height: int, amap: AnatomicalMap, layerClass: bool)
      ensures this.slides == slides && slideWidth == width && slideHeight == height
      ensures anatomicalMap == amap && this.layerClass == layerClass
      ensures layers == map[] && Valid()
    {
      this.slides := slides;
      slideWidth := width;
      slideHeight := height;
      anatomicalMap := amap;
      this.layerClass := layerClass;
      layers := map[];
    }

    /** `len(extractor)`. */
    function Count(): nat
    {
      |slides|
    }

    /** `bounds()`: the slide as a rectangle [left, top, right, bottom]
        with its top-left corner at the origin. */
    function Bounds(): (r: seq<int>)
      ensures |r| == 4 && r[0] == 0 && r[1] == 0
      ensures r[2] - r[0] == slideWidth && r[3] - r[1] == slideHeight
    {
      [0, 0, slideWidth, slideHeight]
    }

    /** `slide(n)`. */
    function Slide(n: int): Result<Slide, Exception>
    {
      SlideAt(slides, n)
    }

    /** `slide_to_layer(n)`: makes the layer of slide n, processes it and
        registers it under its id; an id already registered raises
        KeyError and leaves the registry as it was. Without a layer class
        nothing is made. */
    method SlideToLayer(n: int) returns (r: Result<Option<Layer>, Exception>)
      requires Valid()
      modifies this
      ensures Valid()
      ensures var spec := RegisterOne(old(layers).Keys, slides, anatomicalMap, layerClass, n);
              (r.Success? <==> spec.Success?) &&
              (r.Success? ==> layers.Keys == spec.value) &&
              (r.Failure? ==> r.error == spec.error && layers == old(layers))
      ensures r.Success? && !layerClass ==> r.value.None? && layers == old(layers)
      ensures r.Success? && layerClass ==>
                r.value.Some? && fresh(r.value.value) &&
                layers == old(layers)[r.value.value.header.layerId := r.value.value] &&
                BuildLayer(anatomicalMap, SlideAt(slides, n).value, n)
                  == Success((r.value.value.header, r.value.value.State()))
    {
      var slide := SlideAt(slides, n);
      if slide.Failure? {
        return Failure(slide.error);
      }
      if !layerClass {
        return Success(None);
      }
      var created := Layer.Create(slide.value, n, anatomicalMap);
      if created.Failure? {
        return Failure(created.error);
      }
      var layer := created.value;
      ghost var hm := ReadHeader(slide.value, n).value;
      ghost var spec := ProcessList(hm.0.selectable, anatomicalMap, n, Bookkeeping(hm.1, [], [Str("SLIDE")]), slide.value.shapes);
      assert layer.header == hm.0 && layer.slide == slide.value && layer.slideNumber == n;
      assert [] + [Str("SLIDE")] == [Str("SLIDE")];
      assert layer.State().(groups := layer.State().groups + [Str("SLIDE")]) == Bookkeeping(hm.1, [], [Str("SLIDE")]);
      var processed := layer.Process();
      assert processed.Success? <==> spec.Success?;
      if processed.Failure? {
        return Failure(processed.error);
      }
      assert layer.State() == spec.value.1;
      if layer.header.layerId in layers {
        return Failure(KeyError);
      }
      layers := layers[layer.header.layerId := layer];
      return Success(Some(layer));
    }

    /** `slides_to_layers(range)`: `slide_to_layer` for every slide of the
        range, stopping at the first exception. */
    method SlidesToLayers(range: SlideRange) returns (r: Result<(), Exception>)
      requires Valid()
      modifies this
      ensures Valid()
      ensures var spec := RegisterAll(old(layers).Keys, slides, anatomicalMap, layerClass, RangeNumbers(range, |slides|));
              layers.Keys == spec.0 &&
              (r.Failure? <==> spec.1.Some?) &&
              (r.Failure? ==> r.error == spec.1.value)
    {
      var numbers := RangeNumbers(range, |slides|);
      assert numbers[0..] == numbers;
      for i := 0 to |numbers|
        invariant Valid()
        invariant RegisterAll(old(layers).Keys, slides, anatomicalMap, layerClass, numbers)
               == RegisterAll(layers.Keys, slides, anatomicalMap, layerClass, numbers[i..])
      {
        assert numbers[i..][0] == numbers[i] && numbers[i..][1..] == numbers[i + 1..];
        var one := SlideToLayer(numbers[i]);
        if one.Failure? {
          return Failure(one.error);
        }
      }
      return Success(());
    }
  }

  /** Converting every slide of a deck without layer directives registers
      exactly the default ids of its slides. */
  lemma AllDefaultLayers(slides: seq<Slide>, amap: AnatomicalMap)
    requires forall i :: 0 <= i < |slides| ==> !HasDirective(slides[i])
    ensures RegisterAll({}, slides, amap, true, RangeNumbers(AllSlides, |slides|)) == (DefaultIds(1, |slides|), None)
  {
    assert DefaultIds(1, 0) == {};
    DefaultLayersRegister(slides, amap, 0);
  }
}
