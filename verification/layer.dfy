/** One slide of the presentation turned into a map layer: the layer
    directive in the slide's notes, the properties of each annotated shape,
    the features made from the slide's shapes, and the layer's bookkeeping
    (error messages, the ids already used, the stack of enclosing groups). */
module Layers {
  import opened Wrappers
  import opened Text
  import opened Shapes

  /** A slide: its id, the text of its notes (`None` without a notes
      slide), what the layer-directive parser makes of that text, and the
      slide's shapes. */
  datatype Slide = Slide(slideId: int, notes: Option<string>, directive: Dict, shapes: seq<Shape>)

  /** The diagnostics a layer collects, with the values each message is
      formatted from. */
  datatype Message =
    | InvalidDirective(slide: int, notes: string)
    | SyntaxError(slide: int, group: Value, name: string)
    | DuplicateId(slide: int, group: Value, name: string)
    | Warning(slide: int, group: Value, text: Value)

  /** The settings a layer takes from its directive. */
  datatype Header = Header(layerId: string, description: Value, models: Value, backgroundFor: Value,
                           selectable: bool, selected: Value, queryableNodes: Value, zoom: Option<Value>)

  /** The layer's growing state: error messages, annotated ids in the order
      they were first seen, and the names of the groups being processed. */
  datatype Bookkeeping = Bookkeeping(errors: seq<Message>, annotatedIds: seq<Value>, groups: seq<Value>)

  /** The anatomical map, when the settings name one: the extra properties
      of each anatomical class. A class outside the table adds none. */
  type AnatomicalMap = Option<map<Value, Dict>>

  function ClassProperties(table: map<Value, Dict>, cls: Value): Dict
  {
    if cls in table then table[cls] else []
  }

  // ---------------------------------------------------------------------
  // The layer directive

  /** `'layer-{:02d}'.format(n)`. */
  function DefaultId(n: int): string
  {
    "layer-" + Format02(n)
  }

  /** Different slide numbers give different default layer ids. */
  lemma DefaultIdInjective(m: int, n: int)
    requires DefaultId(m) == DefaultId(n)
    ensures m == n
  {
    assert Format02(m) == DefaultId(m)[6..];
    assert Format02(n) == DefaultId(n)[6..];
    Format02Injective(m, n);
  }

  /** `set_defaults_`. */
  function Defaults(n: int): Header
  {
    Header(DefaultId(n), Str("Layer " + IntToString(n)), Str(""), Str(""), false, Bool(false), Bool(false), None)
  }

  /** The notes of the slide hold a directive: they start with '.'. */
  predicate HasDirective(slide: Slide)
  {
    slide.notes.Some? && StartsWithDot(slide.notes.value)
  }

  /** The header of a layer and the messages reading it produced. The
      default description `layer_id.capitalize()` is computed even when the
      directive has a description, so a directive without a string id
      raises AttributeError. */
  function ReadHeader(slide: Slide, n: int): (r: Result<(Header, seq<Message>), Exception>)
    ensures r.Failure? ==> r.error == AttributeError
    ensures r.Success? ==> |r.value.1| <= 1
    ensures r.Success? && r.value.0.selectable ==> HasDirective(slide)
  {
    if !HasDirective(slide) then Success((Defaults(n), []))
    else
      var dir := slide.directive;
      var invalid := HasKey(dir, "error");
      var messages := if invalid then [InvalidDirective(n, slide.notes.value)] else [];
      var id := if invalid then Some(Str(DefaultId(n))) else Lookup(dir, "id");
      if id.None? || !id.value.Str? then Failure(AttributeError)
      else
        var layerId := id.value.s;
        var backgroundFor := Get(dir, "background-for", Str(""));
        Success((Header(layerId,
                        Get(dir, "description", Str(Capitalize(layerId))),
                        Get(dir, "models", Str("")),
                        backgroundFor,
                        backgroundFor == Str("") && !Truthy(Lookup(dir, "not-selectable")),
                        Get(dir, "selected", Bool(false)),
                        Get(dir, "queryable-nodes", Bool(false)),
                        Lookup(dir, "zoom")),
                 messages))
  }

  /** Without a directive a layer takes the defaults: id `layer-NN`,
      description `Layer N`, and it is not selectable. */
  lemma NoDirectiveDefaults(slide: Slide, n: int)
    requires !HasDirective(slide)
    ensures ReadHeader(slide, n) == Success((Defaults(n), []))
    ensures ReadHeader(slide, n).value.0.layerId == DefaultId(n)
    ensures !ReadHeader(slide, n).value.0.selectable
  {}

  /** A directive the parser rejects gives one message and the default id,
      and its other settings are still read. */
  lemma InvalidDirectiveFallsBack(slide: Slide, n: int)
    requires HasDirective(slide) && HasKey(slide.directive, "error")
    ensures ReadHeader(slide, n).Success?
    ensures ReadHeader(slide, n).value.0.layerId == DefaultId(n)
    ensures ReadHeader(slide, n).value.1 == [InvalidDirective(n, slide.notes.value)]
  {}

  /** A valid directive names the layer: it fails exactly when the id is
      missing or not a string; otherwise the id is the layer id and its
      capitalised form the default description. */
  lemma DirectiveNamesLayer(slide: Slide, n: int)
    requires HasDirective(slide) && !HasKey(slide.directive, "error")
    ensures ReadHeader(slide, n).Success? <==>
              HasKey(slide.directive, "id") && Lookup(slide.directive, "id").value.Str?
    ensures ReadHeader(slide, n).Success? ==>
              var h := ReadHeader(slide, n).value.0;
              Lookup(slide.directive, "id") == Some(Str(h.layerId)) &&
              ReadHeader(slide, n).value.1 == [] &&
              (!HasKey(slide.directive, "description") ==> h.description == Str(Capitalize(h.layerId)))
  {}

  /** A layer is selectable exactly when it has a directive that names no
      `background-for` layer and does not set `not-selectable`. */
  lemma SelectableMeans(slide: Slide, n: int)
    requires ReadHeader(slide, n).Success?
    ensures ReadHeader(slide, n).value.0.selectable <==>
              HasDirective(slide) &&
              Get(slide.directive, "background-for", Str("")) == Str("") &&
              !Truthy(Lookup(slide.directive, "not-selectable"))
  {}

  // ---------------------------------------------------------------------
  // The properties of a shape

  /** `current_group[-1]`, which raises IndexError on an empty stack. */
  function Top(groups: seq<Value>): (r: Result<Value, Exception>)
    ensures r.Success? <==> groups != []
  {
    if groups == [] then Failure(IndexError) else Success(groups[|groups| - 1])
  }

  /** One pass of the loop over a shape's parsed properties, for the entry
      e: an `id` is recorded the first time and flagged as a duplicate
      after that, a `warning` becomes a message, any other entry is
      assigned back. */
  function PropertyStep(n: int, name: string, props: Dict, b: Bookkeeping, e: Entry): Result<(Dict, Bookkeeping), Exception>
  {
    if e.key == "id" then
      if e.value in b.annotatedIds then
        var g :- Top(b.groups);
        Success((Set(props, "error", Str("duplicate-id")), b.(errors := b.errors + [DuplicateId(n, g, name)])))
      else
        Success((props, b.(annotatedIds := b.annotatedIds + [e.value])))
    else if e.key == "warning" then
      var g :- Top(b.groups);
      Success((props, b.(errors := b.errors + [Warning(n, g, e.value)])))
    else
      Success((Set(props, e.key, e.value), b))
  }

  /** The loop over the entries `items` of the dictionary `props`. With
      `live` the loop iterates the dictionary itself, as CPython does for
      `props.items()`: a pass that changes the number of entries makes the
      next step of the iteration raise RuntimeError. Without it the loop
      iterates a snapshot of the entries taken before it starts. */
  function ScanItems(live: bool, n: int, name: string, props: Dict, b: Bookkeeping, items: seq<Entry>): Result<(Dict, Bookkeeping), Exception>
    decreases items
  {
    if items == [] then Success((props, b))
    else
      var s :- PropertyStep(n, name, props, b, items[0]);
      if live && |s.0| != |props| then Failure(RuntimeError)
      else ScanItems(live, n, name, s.0, s.1, items[1..])
  }

  /** The properties an anatomical class adds: those of the anatomical map,
      or the class itself as `label` when there is no map. */
  function AddClassProperties(amap: AnatomicalMap, props: Dict): Dict
  {
    if !HasKey(props, "class") then props
    else
      match amap
      case Some(table) => Update(props, ClassProperties(table, Lookup(props, "class").value))
      case None => Set(props, "label", Lookup(props, "class").value)
  }

  /** `get_properties_`: the properties of a shape and the layer's new
      bookkeeping. `live` chooses how the loop iterates (see ScanItems);
      the rest of the model uses the snapshot. */
  function PropertiesWith(live: bool, amap: AnatomicalMap, n: int, b: Bookkeeping, shape: Shape): Result<(Dict, Bookkeeping), Exception>
  {
    if !StartsWithDot(shape.name) then Success(([Entry("shape_name", Str(shape.name))], b))
    else
      var props := Set(shape.annotation, "shape_name", Str(shape.name));
      if HasKey(props, "error") then
        var g :- Top(b.groups);
        Success((Set(props, "error", Str("syntax")), b.(errors := b.errors + [SyntaxError(n, g, shape.name)])))
      else
        var s :- ScanItems(live, n, shape.name, props, b, props);
        Success((AddClassProperties(amap, s.0), s.1))
  }

  function PropertiesOf(amap: AnatomicalMap, n: int, b: Bookkeeping, shape: Shape): Result<(Dict, Bookkeeping), Exception>
  {
    PropertiesWith(false, amap, n, b, shape)
  }

  /** A shape whose name does not start with '.' gets exactly its name as
      properties, and the bookkeeping is untouched. */
  lemma PlainNameProperties(amap: AnatomicalMap, n: int, b: Bookkeeping, shape: Shape)
    requires !StartsWithDot(shape.name)
    ensures PropertiesOf(amap, n, b, shape) == Success(([Entry("shape_name", Str(shape.name))], b))
  {}

  /** An annotation the parser rejects is marked `error='syntax'`, adds
      exactly one message and records no id. */
  lemma SyntaxErrorProperties(amap: AnatomicalMap, n: int, b: Bookkeeping, shape: Shape)
    requires StartsWithDot(shape.name) && HasKey(shape.annotation, "error")
    requires b.groups != []
    ensures PropertiesOf(amap, n, b, shape).Success?
    ensures var (props, b') := PropertiesOf(amap, n, b, shape).value;
            Lookup(props, "error") == Some(Str("syntax")) &&
            Lookup(props, "shape_name") == Some(Str(shape.name)) &&
            b'.errors == b.errors + [SyntaxError(n, b.groups[|b.groups| - 1], shape.name)] &&
            b'.annotatedIds == b.annotatedIds && b'.groups == b.groups
  {
    var props := Set(shape.annotation, "shape_name", Str(shape.name));
    LookupSet(shape.annotation, "shape_name", Str(shape.name), "error");
    LookupSet(props, "error", Str("syntax"), "error");
    LookupSet(props, "error", Str("syntax"), "shape_name");
    LookupSet(shape.annotation, "shape_name", Str(shape.name), "shape_name");
  }

  /** The entries carry an `id` that has been seen before. */
  predicate IsDuplicate(items: seq<Entry>, ids: seq<Value>)
  {
    HasKey(items, "id") && Lookup(items, "id").value in ids
  }

  /** The id the entries add to the annotated ids: theirs when it is new. */
  function NewId(items: seq<Entry>, ids: seq<Value>): seq<Value>
  {
    if HasKey(items, "id") && Lookup(items, "id").value !in ids then [Lookup(items, "id").value] else []
  }

  lemma {:induction false} LookupTail(items: seq<Entry>, k: string)
    requires items != [] && items[0].key != k
    ensures HasKey(items, k) <==> HasKey(items[1..], k)
    ensures Lookup(items, k) == Lookup(items[1..], k)
  {}

  /** The snapshot loop records a new id, flags a seen one with
      `error='duplicate-id'` and one message, adds one message for a
      warning, and leaves the group stack alone. */
  lemma {:induction false} ScanEffects(n: int, name: string, props: Dict, b: Bookkeeping, items: seq<Entry>)
    requires DistinctKeys(items) && !HasKey(items, "error")
    requires b.groups != []
    ensures ScanItems(false, n, name, props, b, items).Success?
    ensures ScanItems(false, n, name, props, b, items).value.1.groups == b.groups
    ensures ScanItems(false, n, name, props, b, items).value.1.annotatedIds
         == b.annotatedIds + NewId(items, b.annotatedIds)
    ensures b.errors <= ScanItems(false, n, name, props, b, items).value.1.errors
    ensures |ScanItems(false, n, name, props, b, items).value.1.errors|
         == |b.errors| + (if IsDuplicate(items, b.annotatedIds) then 1 else 0)
                       + (if HasKey(items, "warning") then 1 else 0)
    ensures Lookup(ScanItems(false, n, name, props, b, items).value.0, "error")
         == if IsDuplicate(items, b.annotatedIds) then Some(Str("duplicate-id")) else Lookup(props, "error")
    decreases items
  {
    if items != [] {
      var e := items[0];
      var s := PropertyStep(n, name, props, b, e).value;
      assert ScanItems(false, n, name, props, b, items) == ScanItems(false, n, name, s.0, s.1, items[1..]);
      ScanEffects(n, name, s.0, s.1, items[1..]);
      if e.key == "id" {
        LookupTail(items, "warning");
        assert !HasKey(items[1..], "id");
        assert NewId(items[1..], s.1.annotatedIds) == [];
        assert !IsDuplicate(items[1..], s.1.annotatedIds);
        if e.value in b.annotatedIds {
          assert IsDuplicate(items, b.annotatedIds);
          assert NewId(items, b.annotatedIds) == [];
          LookupSet(props, "error", Str("duplicate-id"), "error");
        } else {
          assert !IsDuplicate(items, b.annotatedIds);
          assert NewId(items, b.annotatedIds) == [e.value];
          assert s == (props, b.(annotatedIds := b.annotatedIds + [e.value]));
        }
      } else {
        LookupTail(items, "id");
        assert NewId(items, b.annotatedIds) == NewId(items[1..], s.1.annotatedIds);
        assert IsDuplicate(items, b.annotatedIds) == IsDuplicate(items[1..], s.1.annotatedIds);
        if e.key == "warning" {
          assert !HasKey(items[1..], "warning");
          assert s == (props, b.(errors := b.errors + [Warning(n, b.groups[|b.groups| - 1], e.value)]));
        } else {
          LookupTail(items, "warning");
          LookupSet(props, e.key, e.value, "error");
          assert s == (Set(props, e.key, e.value), b);
        }
      }
    }
  }

  /** Every key of the entries is a key of the dictionary. */
  predicate KeysWithin(items: seq<Entry>, props: Dict)
  {
    forall i :: 0 <= i < |items| ==> HasKey(props, items[i].key)
  }

  lemma {:induction false} KeysWithinSelf(d: Dict)
    ensures KeysWithin(d, d)
  {
    forall i | 0 <= i < |d| ensures HasKey(d, d[i].key) {
      KeyOfEntry(d, d[i]);
    }
  }

  /** Iterating the dictionary itself and iterating a snapshot agree as long
      as no id is a duplicate: every other pass assigns an existing key. */
  lemma {:induction false} LiveScanAgrees(n: int, name: string, props: Dict, b: Bookkeeping, items: seq<Entry>)
    requires DistinctKeys(items) && KeysWithin(items, props)
    requires !IsDuplicate(items, b.annotatedIds)
    ensures ScanItems(true, n, name, props, b, items) == ScanItems(false, n, name, props, b, items)
    decreases items
  {
    if items != [] {
      var e := items[0];
      if e.key == "id" {
        assert !HasKey(items[1..], "id");
      } else {
        LookupTail(items, "id");
      }
      var r := PropertyStep(n, name, props, b, e);
      if r.Success? {
        var s := r.value;
        if e.key != "id" && e.key != "warning" {
          KeysSet(props, e.key, e.value);
        }
        assert Keys(s.0) == Keys(props);
        assert KeysWithin(items[1..], s.0) by {
          forall i | 0 <= i < |items[1..]| ensures HasKey(s.0, items[1..][i].key) {
            assert items[1..][i] == items[i + 1];
          }
        }
        LiveScanAgrees(n, name, s.0, s.1, items[1..]);
      }
    }
  }

  /** Iterating the dictionary itself raises RuntimeError once an id turns
      out to be a duplicate: flagging it adds the key `error` while the
      loop runs. */
  lemma {:induction false} LiveScanRaises(n: int, name: string, props: Dict, b: Bookkeeping, items: seq<Entry>)
    requires DistinctKeys(items) && KeysWithin(items, props)
    requires !HasKey(props, "error")
    requires IsDuplicate(items, b.annotatedIds)
    requires b.groups != []
    ensures ScanItems(true, n, name, props, b, items) == Failure(RuntimeError)
    decreases items
  {
    var e := items[0];
    if e.key == "id" {
      KeysSet(props, "error", Str("duplicate-id"));
    } else {
      LookupTail(items, "id");
      var s := PropertyStep(n, name, props, b, e).value;
      if e.key != "warning" {
        KeysSet(props, e.key, e.value);
      }
      assert Keys(s.0) == Keys(props);
      assert KeysWithin(items[1..], s.0) by {
        forall i | 0 <= i < |items[1..]| ensures HasKey(s.0, items[1..][i].key) {
          assert items[1..][i] == items[i + 1];
        }
      }
      LiveScanRaises(n, name, s.0, s.1, items[1..]);
    }
  }

  /** The dictionary the loop runs over: the parsed annotation with the
      shape's name added. */
  function Annotated(shape: Shape): Dict
  {
    Set(shape.annotation, "shape_name", Str(shape.name))
  }

  lemma AnnotatedFacts(shape: Shape)
    requires DistinctKeys(shape.annotation)
    ensures DistinctKeys(Annotated(shape)) && KeysWithin(Annotated(shape), Annotated(shape))
    ensures HasKey(Annotated(shape), "error") <==> HasKey(shape.annotation, "error")
  {
    SetDistinct(shape.annotation, "shape_name", Str(shape.name));
    KeysWithinSelf(Annotated(shape));
    LookupSet(shape.annotation, "shape_name", Str(shape.name), "error");
  }

  /** As written, a shape whose id was already used makes the loop raise
      RuntimeError instead of flagging the duplicate. */
  lemma DuplicateIdRaisesAsWritten(amap: AnatomicalMap, n: int, b: Bookkeeping, shape: Shape)
    requires StartsWithDot(shape.name) && DistinctKeys(shape.annotation)
    requires !HasKey(shape.annotation, "error")
    requires IsDuplicate(Annotated(shape), b.annotatedIds)
    requires b.groups != []
    ensures PropertiesWith(true, amap, n, b, shape) == Failure(RuntimeError)
  {
    AnnotatedFacts(shape);
    LiveScanRaises(n, shape.name, Annotated(shape), b, Annotated(shape));
  }

  /** The same outcome on a concrete shape: `.id(a)` on a layer that has
      already seen the id `a`. */
  lemma DuplicateIdExample()
    ensures var shape := Shape(7, ".id(a)", [Entry("id", Str("a"))], AutoShape);
            var b := Bookkeeping([], [Str("a")], [Str("SLIDE")]);
            PropertiesWith(true, None, 1, b, shape) == Failure(RuntimeError) &&
            PropertiesOf(None, 1, b, shape).Success?
  {
    var shape := Shape(7, ".id(a)", [Entry("id", Str("a"))], AutoShape);
    var b := Bookkeeping([], [Str("a")], [Str("SLIDE")]);
    assert Annotated(shape) == [Entry("id", Str("a")), Entry("shape_name", Str(".id(a)"))];
    DuplicateIdRaisesAsWritten(None, 1, b, shape);
    ScanEffects(1, shape.name, Annotated(shape), b, Annotated(shape));
  }

  /** With the loop over a snapshot, a duplicate id is flagged with
      `error='duplicate-id'` and one message, and the id is not recorded
      again. */
  lemma DuplicateIdFlagged(amap: AnatomicalMap, n: int, b: Bookkeeping, shape: Shape)
    requires StartsWithDot(shape.name) && DistinctKeys(shape.annotation)
    requires !HasKey(shape.annotation, "error")
    requires IsDuplicate(Annotated(shape), b.annotatedIds)
    requires b.groups != []
    ensures PropertiesOf(amap, n, b, shape).Success?
    ensures ScanItems(false, n, shape.name, Annotated(shape), b, Annotated(shape)).Success?
    ensures var (props, b') := ScanItems(false, n, shape.name, Annotated(shape), b, Annotated(shape)).value;
            PropertiesOf(amap, n, b, shape).value == (AddClassProperties(amap, props), b') &&
            Lookup(props, "error") == Some(Str("duplicate-id")) &&
            b'.annotatedIds == b.annotatedIds &&
            b.errors <= b'.errors && |b'.errors| >= |b.errors| + 1
  {
    AnnotatedFacts(shape);
    ScanEffects(n, shape.name, Annotated(shape), b, Annotated(shape));
  }

  /** Without a duplicate id the code as written and the snapshot loop give
      the same properties and bookkeeping. */
  lemma NoDuplicateAgrees(amap: AnatomicalMap, n: int, b: Bookkeeping, shape: Shape)
    requires DistinctKeys(shape.annotation)
    requires !IsDuplicate(Annotated(shape), b.annotatedIds)
    ensures PropertiesWith(true, amap, n, b, shape) == PropertiesOf(amap, n, b, shape)
  {
    if StartsWithDot(shape.name) {
      AnnotatedFacts(shape);
      LiveScanAgrees(n, shape.name, Annotated(shape), b, Annotated(shape));
    }
  }

  /** The first shape with a given id records it. */
  lemma FirstIdRecorded(amap: AnatomicalMap, n: int, b: Bookkeeping, shape: Shape)
    requires StartsWithDot(shape.name) && DistinctKeys(shape.annotation)
    requires !HasKey(shape.annotation, "error") && !HasKey(shape.annotation, "warning")
    requires HasKey(shape.annotation, "id") && Lookup(shape.annotation, "id").value !in b.annotatedIds
    requires b.groups != []
    ensures PropertiesOf(amap, n, b, shape).Success?
    ensures PropertiesOf(amap, n, b, shape).value.1
         == b.(annotatedIds := b.annotatedIds + [Lookup(shape.annotation, "id").value])
  {
    AnnotatedFacts(shape);
    LookupSet(shape.annotation, "shape_name", Str(shape.name), "id");
    LookupSet(shape.annotation, "shape_name", Str(shape.name), "warning");
    ScanEffects(n, shape.name, Annotated(shape), b, Annotated(shape));
  }

  /** The loop over a snapshot cannot fail while a group is on the stack,
      and leaves the stack as it was. */
  lemma {:induction false} ScanKeepsGroups(n: int, name: string, props: Dict, b: Bookkeeping, items: seq<Entry>)
    requires b.groups != []
    ensures ScanItems(false, n, name, props, b, items).Success?
    ensures ScanItems(false, n, name, props, b, items).value.1.groups == b.groups
    decreases items
  {
    if items != [] {
      var s := PropertyStep(n, name, props, b, items[0]).value;
      ScanKeepsGroups(n, name, s.0, s.1, items[1..]);
    }
  }

  /** `get_properties_` cannot fail while a group is on the stack, and
      leaves the stack as it was. */
  lemma PropertiesKeepGroups(amap: AnatomicalMap, n: int, b: Bookkeeping, shape: Shape)
    requires b.groups != []
    ensures PropertiesOf(amap, n, b, shape).Success?
    ensures PropertiesOf(amap, n, b, shape).value.1.groups == b.groups
  {
    if StartsWithDot(shape.name) {
      ScanKeepsGroups(n, shape.name, Annotated(shape), b, Annotated(shape));
    }
  }

  // ---------------------------------------------------------------------
  // Shape lists

  /** The shapes that become features: auto shapes, freeforms and
      connectors. */
  predicate Drawable(s: Shape)
  {
    s.kind.AutoShape? || s.kind.Freeform? || s.kind.Connector?
  }

  /** `process_shape_list` with the layer's selectable flag, anatomical map
      and slide number. */
  function ProcessList(selectable: bool, amap: AnatomicalMap, n: int, b: Bookkeeping, shapes: seq<Shape>): Result<(seq<FeatureData>, Bookkeeping), Exception>
    decreases shapes, 1
  {
    if !selectable then Success(([], b)) else ProcessShapes(selectable, amap, n, b, shapes)
  }

  /** The loop of `process_shape_list` over the shapes. */
  function ProcessShapes(selectable: bool, amap: AnatomicalMap, n: int, b: Bookkeeping, shapes: seq<Shape>): Result<(seq<FeatureData>, Bookkeeping), Exception>
    decreases shapes, 0
  {
    if shapes == [] then Success(([], b))
    else
      var first :- ProcessShape(selectable, amap, n, b, shapes[0]);
      var rest :- ProcessShapes(selectable, amap, n, first.1, shapes[1..]);
      Success((first.0 + rest.0, rest.1))
  }

  /** One pass of that loop: a drawable shape becomes a feature; a group is
      processed with its name on the group stack and contributes nothing,
      since the base `process_group` returns None; text boxes, pictures and
      other shapes contribute nothing. */
  function ProcessShape(selectable: bool, amap: AnatomicalMap, n: int, b: Bookkeeping, s: Shape): Result<(seq<FeatureData>, Bookkeeping), Exception>
    decreases s
  {
    var p :- PropertiesOf(amap, n, b, s);
    var (props, b1) := p;
    if s.kind.Group? then
      var inner :- ProcessList(selectable, amap, n, b1.(groups := b1.groups + [Get(props, "shape_name", Str("''"))]), s.kind.shapes);
      var b2 := inner.1;
      if b2.groups == [] then Failure(IndexError)
      else Success(([], b2.(groups := b2.groups[..|b2.groups| - 1])))
    else if Drawable(s) then Success(([FeatureData(s.shapeId, None, props, false)], b1))
    else Success(([], b1))
  }

  /** The loop of `process_shape_list` is its first pass followed by the
      loop over the remaining shapes. */
  lemma ShapesStep(selectable: bool, amap: AnatomicalMap, n: int, b: Bookkeeping, shapes: seq<Shape>)
    requires shapes != []
    ensures var first := ProcessShape(selectable, amap, n, b, shapes[0]);
            var all := ProcessShapes(selectable, amap, n, b, shapes);
            (first.Failure? ==> all == Failure(first.error)) &&
            (first.Success? ==>
              var rest := ProcessShapes(selectable, amap, n, first.value.1, shapes[1..]);
              (all.Success? <==> rest.Success?) &&
              (rest.Success? ==> all.value == (first.value.0 + rest.value.0, rest.value.1)) &&
              (rest.Failure? ==> all.error == rest.error))
  {}

  /** The ids of the drawable shapes of a list, in order. */
  function DrawableIds(shapes: seq<Shape>): seq<nat>
  {
    if shapes == [] then []
    else (if Drawable(shapes[0]) then [shapes[0].shapeId] else []) + DrawableIds(shapes[1..])
  }

  function FeatureIds(fs: seq<FeatureData>): seq<nat>
  {
    if fs == [] then [] else [fs[0].id] + FeatureIds(fs[1..])
  }

  lemma {:induction false} FeatureIdsAppend(xs: seq<FeatureData>, ys: seq<FeatureData>)
    ensures FeatureIds(xs + ys) == FeatureIds(xs) + FeatureIds(ys)
  {
    if xs == [] {
      assert xs + ys == ys;
    } else {
      assert (xs + ys)[0] == xs[0];
      assert (xs + ys)[1..] == xs[1..] + ys;
      FeatureIdsAppend(xs[1..], ys);
    }
  }

  /** What processing a list of shapes does while a group is on the stack:
      it cannot fail, leaves the group stack as it was, and returns one
      feature without children or geometry per drawable shape of the list
      itself, in order (none when the layer is not selectable). */
  lemma {:induction false} ListOutcome(selectable: bool, amap: AnatomicalMap, n: int, b: Bookkeeping, shapes: seq<Shape>)
    requires b.groups != []
    ensures ProcessList(selectable, amap, n, b, shapes).Success?
    ensures var (fs, b') := ProcessList(selectable, amap, n, b, shapes).value;
            b'.groups == b.groups &&
            FeatureIds(fs) == (if selectable then DrawableIds(shapes) else []) &&
            forall f | f in fs :: f.geometry.None? && !f.hasChildren
    decreases shapes, 1
  {
    if selectable {
      ShapesOutcome(selectable, amap, n, b, shapes);
    }
  }

  lemma {:induction false} ShapesOutcome(selectable: bool, amap: AnatomicalMap, n: int, b: Bookkeeping, shapes: seq<Shape>)
    requires b.groups != []
    ensures ProcessShapes(selectable, amap, n, b, shapes).Success?
    ensures var (fs, b') := ProcessShapes(selectable, amap, n, b, shapes).value;
            b'.groups == b.groups && FeatureIds(fs) == DrawableIds(shapes) &&
            forall f | f in fs :: f.geometry.None? && !f.hasChildren
    decreases shapes, 0
  {
    if shapes != [] {
      ShapeOutcome(selectable, amap, n, b, shapes[0]);
      var first := ProcessShape(selectable, amap, n, b, shapes[0]).value;
      ShapesOutcome(selectable, amap, n, first.1, shapes[1..]);
      var rest := ProcessShapes(selectable, amap, n, first.1, shapes[1..]).value;
      FeatureIdsAppend(first.0, rest.0);
    }
  }

  lemma {:induction false} ShapeOutcome(selectable: bool, amap: AnatomicalMap, n: int, b: Bookkeeping, s: Shape)
    requires b.groups != []
    ensures ProcessShape(selectable, amap, n, b, s).Success?
    ensures var (fs, b') := ProcessShape(selectable, amap, n, b, s).value;
            b'.groups == b.groups && FeatureIds(fs) == (if Drawable(s) then [s.shapeId] else []) &&
            forall f | f in fs :: f.geometry.None? && !f.hasChildren
    decreases s
  {
    PropertiesKeepGroups(amap, n, b, s);
    var (props, b1) := PropertiesOf(amap, n, b, s).value;
    if s.kind.Group? {
      var pushed := b1.(groups := b1.groups + [Get(props, "shape_name", Str("''"))]);
      ListOutcome(selectable, amap, n, pushed, s.kind.shapes);
    }
  }

  /** A layer that is not selectable makes no features and changes
      nothing. */
  lemma NotSelectableMakesNothing(amap: AnatomicalMap, n: int, b: Bookkeeping, shapes: seq<Shape>)
    ensures ProcessList(false, amap, n, b, shapes) == Success(([], b))
  {}

  /** A whole layer: its header, then its shapes processed with `SLIDE` on
      the group stack. */
  function BuildLayer(amap: AnatomicalMap, slide: Slide, n: int): Result<(Header, Bookkeeping), Exception>
  {
    var hm :- ReadHeader(slide, n);
    var out :- ProcessList(hm.0.selectable, amap, n, Bookkeeping(hm.1, [], [Str("SLIDE")]), slide.shapes);
    Success((hm.0, out.1))
  }

  /** Building a layer fails only when its directive has no string id. */
  lemma BuildLayerFails(amap: AnatomicalMap, slide: Slide, n: int)
    ensures BuildLayer(amap, slide, n).Success? <==> ReadHeader(slide, n).Success?
    ensures BuildLayer(amap, slide, n).Success? ==>
              BuildLayer(amap, slide, n).value.0 == ReadHeader(slide, n).value.0 &&
              BuildLayer(amap, slide, n).value.1.groups == [Str("SLIDE")]
  {
    if ReadHeader(slide, n).Success? {
      var hm := ReadHeader(slide, n).value;
      ListOutcome(hm.0.selectable, amap, n, Bookkeeping(hm.1, [], [Str("SLIDE")]), slide.shapes);
    }
  }

  // ---------------------------------------------------------------------
  // The layer object

  function Datas(fs: seq<Feature>): seq<FeatureData>
    reads set f | f in fs
  {
    if fs == [] then [] else [fs[0].Data()] + Datas(fs[1..])
  }

  /** Partway through the loop of `process_shape_list`: the whole list's
      outcome is the features made so far followed by the outcome of the
      shapes still to do. */
  predicate Continues(whole: Result<(seq<FeatureData>, Bookkeeping), Exception>, done: seq<FeatureData>,
                      todo: Result<(seq<FeatureData>, Bookkeeping), Exception>)
  {
    (whole.Success? <==> todo.Success?) &&
    (whole.Success? ==> whole.value.0 == done + todo.value.0 && whole.value.1 == todo.value.1) &&
    (whole.Failure? ==> whole.error == todo.error)
  }

  /** Taking one more pass: what it made joins the features made so far. */
  lemma ContinuesStep(whole: Result<(seq<FeatureData>, Bookkeeping), Exception>, done: seq<FeatureData>, first: seq<FeatureData>,
                      todo: Result<(seq<FeatureData>, Bookkeeping), Exception>,
                      rest: Result<(seq<FeatureData>, Bookkeeping), Exception>)
    requires Continues(whole, done, todo)
    requires todo.Success? <==> rest.Success?
    requires rest.Success? ==> todo.value == (first + rest.value.0, rest.value.1)
    requires rest.Failure? ==> todo.error == rest.error
    ensures Continues(whole, done + first, rest)
  {
    if rest.Success? {
      assert done + (first + rest.value.0) == (done + first) + rest.value.0;
    }
  }

  /** A method's outcome agrees with a specification's outcome. */
  predicate Agrees<T(==)>(r: Result<T, Exception>, spec: Result<(T, Bookkeeping), Exception>, state: Bookkeeping)
  {
    (r.Success? <==> spec.Success?) &&
    (r.Success? ==> r.value == spec.value.0 && state == spec.value.1) &&
    (r.Failure? ==> r.error == spec.error)
  }

  class Layer {
    const slide: Slide
    const slideNumber: int
    const anatomicalMap: AnatomicalMap
    const header: Header
    var errors: seq<Message>
    var annotatedIds: seq<Value>
    var currentGroup: seq<Value>

    function State(): Bookkeeping
      reads this
    {
      Bookkeeping(errors, annotatedIds, currentGroup)
    }

    constructor(slide: Slide, n: int, amap: AnatomicalMap, header: Header, messages: seq<Message>)
      ensures this.slide == slide && slideNumber == n && anatomicalMap == amap && this.header == header
      ensures State() == Bookkeeping(messages, [], [])
    {
      this.slide := slide;
      slideNumber := n;
      anatomicalMap := amap;
      this.header := header;
      errors := messages;
      annotatedIds := [];
      currentGroup := [];
    }

    /** `Layer(extractor, slide, slide_number)`: reads the directive and
        sets up empty bookkeeping. */
    static method Create(slide: Slide, n: int, amap: AnatomicalMap) returns (r: Result<Layer, Exception>)
      ensures r.Success? <==> ReadHeader(slide, n).Success?
      ensures r.Failure? ==> r.error == ReadHeader(slide, n).error
      ensures r.Success? ==>
                fresh(r.value) && r.value.slide == slide && r.value.slideNumber == n &&
                r.value.anatomicalMap == amap &&
                r.value.header == ReadHeader(slide, n).value.0 &&
                r.value.State() == Bookkeeping(ReadHeader(slide, n).value.1, [], [])
    {
      var h := ReadHeader(slide, n);
      if h.Failure? {
        return Failure(h.error);
      }
      var layer := new Layer(slide, n, amap, h.value.0, h.value.1);
      return Success(layer);
    }

    /** `get_properties_`. */
    method GetProperties(shape: Shape) returns (r: Result<Dict, Exception>)
      modifies this
      ensures Agrees(r, PropertiesOf(anatomicalMap, slideNumber, old(State()), shape), State())
    {
      if !StartsWithDot(shape.name) {
        return Success([Entry("shape_name", Str(shape.name))]);
      }
      var props := Set(shape.annotation, "shape_name", Str(shape.name));
      if HasKey(props, "error") {
        if currentGroup == [] {
          return Failure(IndexError);
        }
        errors := errors + [SyntaxError(slideNumber, currentGroup[|currentGroup| - 1], shape.name)];
        return Success(Set(props, "error", Str("syntax")));
      }
      var items := props;
      ghost var start := State();
      var i := 0;
      while i < |items|
        invariant 0 <= i <= |items|
        invariant ScanItems(false, slideNumber, shape.name, items, start, items)
               == ScanItems(false, slideNumber, shape.name, props, State(), items[i..])
      {
        assert items[i..][0] == items[i] && items[i..][1..] == items[i + 1..];
        var next := ScanEntry(shape.name, props, items[i]);
        if next.Failure? {
          return Failure(next.error);
        }
        props := next.value;
        i := i + 1;
      }
      return Success(AddClassProperties(anatomicalMap, props));
    }

    /** One pass of the loop of `get_properties_` over the entry e. */
    method ScanEntry(name: string, props: Dict, e: Entry) returns (r: Result<Dict, Exception>)
      modifies this
      ensures Agrees(r, PropertyStep(slideNumber, name, props, old(State()), e), State())
    {
      if e.key == "id" {
        if e.value in annotatedIds {
          if currentGroup == [] {
            return Failure(IndexError);
          }
          errors := errors + [DuplicateId(slideNumber, currentGroup[|currentGroup| - 1], name)];
          return Success(Set(props, "error", Str("duplicate-id")));
        }
        annotatedIds := annotatedIds + [e.value];
        return Success(props);
      } else if e.key == "warning" {
        if currentGroup == [] {
          return Failure(IndexError);
        }
        errors := errors + [Warning(slideNumber, currentGroup[|currentGroup| - 1], e.value)];
        return Success(props);
      }
      return Success(Set(props, e.key, e.value));
    }

    /** `process_shape_list`: the features made from the shapes. */
    method ProcessShapeList(shapes: seq<Shape>) returns (r: Result<seq<Feature>, Exception>)
      modifies this
      decreases shapes
      ensures var spec := ProcessList(header.selectable, anatomicalMap, slideNumber, old(State()), shapes);
              (r.Success? <==> spec.Success?) &&
              (r.Success? ==> Datas(r.value) == spec.value.0 && State() == spec.value.1 &&
                              forall f | f in r.value :: fresh(f)) &&
              (r.Failure? ==> r.error == spec.error)
    {
      if !header.selectable {
        return Success([]);
      }
      ghost var whole := ProcessShapes(header.selectable, anatomicalMap, slideNumber, State(), shapes);
      var features: seq<Feature> := [];
      assert shapes[0..] == shapes;
      for i := 0 to |shapes|
        invariant forall f | f in features :: fresh(f)
        invariant Continues(whole, Datas(features), ProcessShapes(header.selectable, anatomicalMap, slideNumber, State(), shapes[i..]))
      {
        assert shapes[i..][0] == shapes[i] && shapes[i..][1..] == shapes[i + 1..];
        ShapesStep(header.selectable, anatomicalMap, slideNumber, State(), shapes[i..]);
        ghost var todo := ProcessShapes(header.selectable, anatomicalMap, slideNumber, State(), shapes[i..]);
        ghost var soFar := Datas(features);
        var one := ProcessOne(shapes[i]);
        assert Datas(features) == soFar;
        if one.Failure? {
          return Failure(one.error);
        }
        ghost var rest := ProcessShapes(header.selectable, anatomicalMap, slideNumber, State(), shapes[i + 1..]);
        ContinuesStep(whole, soFar, Datas(one.value), todo, rest);
        DatasConcat(features, one.value);
        features := features + one.value;
      }
      return Success(features);
    }

    /** One pass of the loop of `process_shape_list`. */
    method ProcessOne(s: Shape) returns (r: Result<seq<Feature>, Exception>)
      modifies this
      decreases s, 1
      ensures var spec := ProcessShape(header.selectable, anatomicalMap, slideNumber, old(State()), s);
              (r.Success? <==> spec.Success?) &&
              (r.Success? ==> Datas(r.value) == spec.value.0 && State() == spec.value.1 &&
                              forall f | f in r.value :: fresh(f)) &&
              (r.Failure? ==> r.error == spec.error)
    {
      var props := GetProperties(s);
      if props.Failure? {
        return Failure(props.error);
      }
      if s.kind.Group? {
        var inner := ProcessGroup(s, props.value);
        if inner.Failure? {
          return Failure(inner.error);
        }
        return Success([]);
      } else if Drawable(s) {
        var f := new Feature(s.shapeId, None, props.value, false);
        return Success([f]);
      }
      return Success([]);
    }

    /** `process_group`: processes the group's shapes with the group's name
        on the group stack; the base class returns nothing. */
    method ProcessGroup(group: Shape, properties: Dict) returns (r: Result<(), Exception>)
      requires group.kind.Group?
      modifies this
      decreases group, 0
      ensures var pushed := old(State()).(groups := old(State()).groups + [Get(properties, "shape_name", Str("''"))]);
              var spec := ProcessList(header.selectable, anatomicalMap, slideNumber, pushed, group.kind.shapes);
              (r.Success? <==> spec.Success? && spec.value.1.groups != []) &&
              (spec.Success? && spec.value.1.groups == [] ==> r == Failure(IndexError)) &&
              (spec.Failure? ==> r == Failure(spec.error)) &&
              (r.Success? ==> State() == spec.value.1.(groups := spec.value.1.groups[..|spec.value.1.groups| - 1]))
    {
      currentGroup := currentGroup + [Get(properties, "shape_name", Str("''"))];
      var inner := ProcessShapeList(group.kind.shapes);
      if inner.Failure? {
        return Failure(inner.error);
      }
      if currentGroup == [] {
        return Failure(IndexError);
      }
      currentGroup := currentGroup[..|currentGroup| - 1];
      return Success(());
    }

    /** `process`: the slide's shapes, with `SLIDE` pushed on the group
        stack. */
    method Process() returns (r: Result<(), Exception>)
      modifies this
      ensures var spec := ProcessList(header.selectable, anatomicalMap, slideNumber,
                                      old(State()).(groups := old(State()).groups + [Str("SLIDE")]), slide.shapes);
              (r.Success? <==> spec.Success?) &&
              (r.Success? ==> State() == spec.value.1) &&
              (r.Failure? ==> r.error == spec.error)
    {
      currentGroup := currentGroup + [Str("SLIDE")];
      var fs := ProcessShapeList(slide.shapes);
      if fs.Failure? {
        return Failure(fs.error);
      }
      return Success(());
    }
  }

  lemma {:induction false} DatasConcat(fs: seq<Feature>, gs: seq<Feature>)
    ensures Datas(fs + gs) == Datas(fs) + Datas(gs)
  {
    if fs == [] {
      assert fs + gs == gs;
    } else {
      assert (fs + gs)[0] == fs[0];
      assert (fs + gs)[1..] == fs[1..] + gs;
      DatasConcat(fs[1..], gs);
    }
  }
}
