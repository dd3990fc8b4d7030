/** Values the annotation parser produces, the insertion-ordered property
    dictionaries that carry them, the shapes of a slide and the `Feature`
    the extractor makes from a shape. */
module Shapes {
  import opened Wrappers
  import opened Text

  /** The Python exceptions the extractor can raise. */
  datatype Exception = IndexError | KeyError | AttributeError | RuntimeError

  /** A property value: a string, a flag or a number. */
  datatype Value = Str(s: string) | Bool(b: bool) | Num(n: int)

  /** Python truthiness of a value; a missing value (`None`) is false. */
  predicate Truthy(v: Option<Value>)
  {
    match v
    case None => false
    case Some(Str(s)) => s != ""
    case Some(Bool(b)) => b
    case Some(Num(n)) => n != 0
  }

  // ---------------------------------------------------------------------
  // Insertion-ordered dictionaries

  datatype Entry = Entry(key: string, value: Value)

  /** A Python `dict` from strings to values: its entries in insertion
      order. */
  type Dict = seq<Entry>

  /** The keys in insertion order (`list(d)`). */
  function Keys(d: Dict): (ks: seq<string>)
    ensures |ks| == |d|
  {
    if d == [] then [] else [d[0].key] + Keys(d[1..])
  }

  predicate HasKey(d: Dict, k: string)
  {
    k in Keys(d)
  }

  /** Every key occurs once, as in every Python dictionary. */
  predicate DistinctKeys(d: Dict)
  {
    d == [] || (d[0].key !in Keys(d[1..]) && DistinctKeys(d[1..]))
  }

  /** `d[k]`, `None` when k is absent. */
  function Lookup(d: Dict, k: string): (r: Option<Value>)
    ensures r.Some? <==> HasKey(d, k)
    ensures r.Some? ==> Entry(k, r.value) in d
  {
    if d == [] then None
    else if d[0].key == k then Some(d[0].value)
    else Lookup(d[1..], k)
  }

  /** In a dictionary with distinct keys an entry is what its key looks up. */
  lemma {:induction false} LookupEntry(d: Dict, k: string, v: Value)
    requires DistinctKeys(d)
    requires Entry(k, v) in d
    ensures Lookup(d, k) == Some(v)
  {
    if d[0] != Entry(k, v) {
      assert Entry(k, v) in d[1..];
      if d[0].key == k {
        KeyOfEntry(d[1..], Entry(k, v));
      } else {
        LookupEntry(d[1..], k, v);
      }
    }
  }

  lemma {:induction false} KeyOfEntry(d: Dict, e: Entry)
    requires e in d
    ensures e.key in Keys(d)
  {
    if d[0] != e {
      assert e in d[1..];
      KeyOfEntry(d[1..], e);
    }
  }

  /** `d.get(k, default)`. */
  function Get(d: Dict, k: string, default: Value): Value
  {
    match Lookup(d, k)
    case Some(v) => v
    case None => default
  }

  /** `d[k] = v`. */
  function Set(d: Dict, k: string, v: Value): Dict
  {
    if d == [] then [Entry(k, v)]
    else if d[0].key == k then [Entry(k, v)] + d[1..]
    else [d[0]] + Set(d[1..], k, v)
  }

  /** After `d[k] = v`, k looks up v and every other key what it did. */
  lemma {:induction false} LookupSet(d: Dict, k: string, v: Value, k': string)
    ensures Lookup(Set(d, k, v), k') == if k' == k then Some(v) else Lookup(d, k')
  {
    if d != [] && d[0].key != k {
      assert Set(d, k, v)[1..] == Set(d[1..], k, v);
      LookupSet(d[1..], k, v, k');
    }
  }

  /** An existing key keeps its place; a new one goes last. */
  lemma {:induction false} KeysSet(d: Dict, k: string, v: Value)
    ensures Keys(Set(d, k, v)) == if HasKey(d, k) then Keys(d) else Keys(d) + [k]
  {
    if d != [] && d[0].key != k {
      assert Set(d, k, v)[1..] == Set(d[1..], k, v);
      KeysSet(d[1..], k, v);
    }
  }

  /** Assignment keeps the keys distinct. */
  lemma {:induction false} SetDistinct(d: Dict, k: string, v: Value)
    requires DistinctKeys(d)
    ensures DistinctKeys(Set(d, k, v))
  {
    if d != [] && d[0].key != k {
      assert Set(d, k, v)[1..] == Set(d[1..], k, v);
      SetDistinct(d[1..], k, v);
      KeysSet(d[1..], k, v);
    }
  }

  /** `d.update(e)`: every entry of e is assigned into d in e's order. */
  function Update(d: Dict, e: Dict): Dict
    decreases e
  {
    if e == [] then d else Update(Set(d, e[0].key, e[0].value), e[1..])
  }

  /** After `d.update(e)` the keys of e look up their values in e, and
      every other key what it did in d. */
  lemma {:induction false} LookupUpdate(d: Dict, e: Dict, k: string)
    requires DistinctKeys(e)
    ensures Lookup(Update(d, e), k) == if HasKey(e, k) then Lookup(e, k) else Lookup(d, k)
    decreases e
  {
    if e != [] {
      LookupUpdate(Set(d, e[0].key, e[0].value), e[1..], k);
      LookupSet(d, e[0].key, e[0].value, k);
    }
  }

  /** Update keeps the keys distinct. */
  lemma {:induction false} UpdateDistinct(d: Dict, e: Dict)
    requires DistinctKeys(d)
    ensures DistinctKeys(Update(d, e))
    decreases e
  {
    if e != [] {
      SetDistinct(d, e[0].key, e[0].value);
      UpdateDistinct(Set(d, e[0].key, e[0].value), e[1..]);
    }
  }

  /** `d.get(p, '') != ''`. */
  predicate HasValue(d: Dict, p: string)
  {
    Get(d, p, Str("")) != Str("")
  }

  /** A feature has p exactly when p is present with a value other than the
      empty string. */
  lemma HasValueMeans(d: Dict, p: string)
    requires DistinctKeys(d)
    ensures HasValue(d, p) <==> exists v :: Entry(p, v) in d && v != Str("")
  {
    if exists v :: Entry(p, v) in d && v != Str("") {
      var v :| Entry(p, v) in d && v != Str("");
      LookupEntry(d, p, v);
    }
  }

  // ---------------------------------------------------------------------
  // Shapes and features

  /** A slide shape. `annotation` is what the annotation parser makes of
      the shape's name; it is consulted only for a name starting with '.'. */
  datatype Shape = Shape(shapeId: nat, name: string, annotation: Dict, kind: Kind)

  datatype Kind =
    | AutoShape
    | Freeform
    | Connector
    | Group(shapes: seq<Shape>)
    | TextBox
    | Picture
    | OtherKind

  /** The geometry a layer subclass makes of a shape; only its type name is
      modelled. */
  datatype Geometry = Geometry(geomType: string)

  /** The contents of a feature. */
  datatype FeatureData = FeatureData(id: nat, geometry: Option<Geometry>, properties: Dict, hasChildren: bool)

  /** The name a feature was made from; '' when it has none. */
  function ShapeName(properties: Dict): Value
  {
    Get(properties, "shape_name", Str(""))
  }

  /** A feature is annotated when its shape name starts with '.'; a shape
      name that is not a string has no `startswith`. */
  function IsAnnotated(properties: Dict): (r: Result<bool, Exception>)
    ensures r.Failure? <==> HasKey(properties, "shape_name") && !Lookup(properties, "shape_name").value.Str?
    ensures r == Success(true) <==>
              HasKey(properties, "shape_name") && Lookup(properties, "shape_name").value.Str? &&
              StartsWithDot(Lookup(properties, "shape_name").value.s)
  {
    match ShapeName(properties)
    case Str(s) => Success(StartsWithDot(s))
    case _ => Failure(AttributeError)
  }

  class Feature {
    var id: nat
    var geometry: Option<Geometry>
    var properties: Dict
    var hasChildren: bool

    constructor(id: nat, geometry: Option<Geometry>, properties: Dict, hasChildren: bool)
      ensures Data() == FeatureData(id, geometry, properties, hasChildren)
    {
      this.id := id;
      this.geometry := geometry;
      this.properties := properties;
      this.hasChildren := hasChildren;
    }

    function Data(): FeatureData
      reads this
    {
      FeatureData(id, geometry, properties, hasChildren)
    }

    /** A new feature with deep copies of the geometry and properties. */
    method Copy() returns (f: Feature)
      ensures fresh(f)
      ensures f.Data() == Data()
    {
      f := new Feature(id, geometry, properties, hasChildren);
    }

    /** The geometry setter. */
    method SetGeometry(g: Option<Geometry>)
      modifies this
      ensures Data() == old(Data()).(geometry := g)
    {
      geometry := g;
    }

    function Annotated(): Result<bool, Exception>
      reads this
    {
      IsAnnotated(properties)
    }

    predicate Has(p: string)
      reads this
    {
      HasValue(properties, p)
    }

    /** `is_a(p)`: the value of p, `False` when absent. */
    function IsA(p: string): Value
      reads this
    {
      Get(properties, p, Bool(false))
    }

    /** `property(p, default)`. */
    function Property(p: string, default: Option<Value>): Option<Value>
      reads this
    {
      match Lookup(properties, p)
      case Some(v) => Some(v)
      case None => default
    }
  }

  /** A copy is a different object: changing the copy's geometry leaves the
      original as it was. */
  method CopyIsIndependent(f: Feature, g: Option<Geometry>) returns (c: Feature)
    ensures fresh(c)
    ensures c.Data() == f.Data().(geometry := g)
    ensures f.Data() == old(f.Data())
  {
    c := f.Copy();
    c.SetGeometry(g);
  }
}
