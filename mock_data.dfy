/**
 * Mock data generation: one constructor per definition, recursive value
 * generation over scalar, array, file and reference types, and the
 * `generate` pass that fills one dataset per definition and copies the
 * seed-only datasets through.
 *
 * Random sampling of a regular expression is the parameter `sample`.
 * JavaScript's call stack is the parameter `fuel`: every nested
 * `generateValue` uses one unit, and running out is the `RangeError` a
 * self-referential definition ends in.
 */
module MockData {
  import opened Wrappers
  import opened Json
  import opened Schema
  import opened Helpers

  /** What makes generation throw. */
  datatype GenError =
    | StackOverflow        // the recursion went deeper than the stack allows
    | MissingItems         // an array node without `items` (`JSON.parse(undefined)`)
    | NotAnArray(name: string)  // `data[name].push` on a value that is not an array

  /**
   * What `getConstructor` captures of a definition: its properties and its
   * `required` array (the empty list when `required` is not an array).
   */
  datatype Constructor = Constructor(properties: seq<(string, Node)>, required: seq<string>)

  function GetConstructor(d: Definition): Constructor {
    Constructor(d.properties, d.required.GetOr([]))
  }

  /** `this.definitions` once `setDefinitions` has run: one constructor per definition, in order. */
  function Constructors(defs: seq<(string, Definition)>): (r: seq<(string, Constructor)>)
    ensures |r| == |defs|
    ensures forall k :: 0 <= k < |defs| ==> r[k] == (defs[k].0, GetConstructor(defs[k].1))
  {
    seq(|defs|, k requires 0 <= k < |defs| => (defs[k].0, GetConstructor(defs[k].1)))
  }

  /** Everything generation reads: the constructors, the options and the sampler. */
  datatype Context = Context(ctors: seq<(string, Constructor)>, options: Options, sample: string -> string)

  /** `property.required = (required.indexOf(name) > -1)`. */
  function WithRequired(p: Node, req: bool): Node {
    p.(required := Flag(req))
  }

  /** The value of `length` in `generateValue`: the seed's length when the seed is truthy, else 1. */
  function ArrayLength(seed: Json): nat {
    if Truthy(seed) then Length(seed) else 1
  }

  /** `mockProperty ? mockProperty[i] : null`. */
  function ElementSeed(seed: Json, i: nat): Json {
    if Truthy(seed) then At(seed, i) else Null
  }

  /** The key `definitions[type]` reads: a missing `type` is the string "undefined". */
  function TypeName(t: Option<string>): string {
    t.GetOr("undefined")
  }

  /**
   * The value `mockProperty` holds when the constructor's loop reaches
   * property `n - 1`: the seed's entry for the LAST of the first `n`
   * properties (in key enumeration order) that has one, `undefined` when none has.  It is never reset
   * between properties.
   */
  function Carried(props: seq<(string, Node)>, seed: Json, n: nat): Json
    requires n <= |props|
  {
    if n == 0 then Undefined
    else if Truthy(seed) && Get(seed, props[n - 1].0) != Undefined then Get(seed, props[n - 1].0)
    else Carried(props, seed, n - 1)
  }

  /**
   * `generateValue(property, mockProperty)`: a scalar takes a truthy seed
   * verbatim and is sampled from its pattern otherwise; an array has the
   * seed's length (1 without a seed) and recurses into `items`; a file is
   * `null`; any other type is an object of that definition.
   */
  function GenValue(ctx: Context, node: Node, seed: Json, fuel: nat): Result<Json, GenError>
    decreases fuel, 0, 0
  {
    if fuel == 0 then Err(StackOverflow)
    else
      var fmt := GetItemFormat(node);
      if IsScalarType(fmt.typ) then Ok(ScalarValue(ctx, fmt, seed))
      else if fmt.typ == Some("array") then
        var elems :- GenElems(ctx, fmt.items, seed, ArrayLength(seed), fuel - 1);
        Ok(Arr(elems))
      else if fmt.typ == Some("file") then Ok(Null)
      else MockObjectOf(ctx, TypeName(fmt.typ), seed, fuel - 1)
  }

  /**
   * A scalar: a truthy seed verbatim, otherwise a sample of the pattern
   * the item format yields (scalar types always yield one).
   */
  function ScalarValue(ctx: Context, fmt: Node, seed: Json): Json {
    if Truthy(seed) then seed else Str(ctx.sample(GetItemFormatPattern(fmt, ctx.options).GetOr("")))
  }

  /** The first `n` elements the array loop pushes. */
  function GenElems(ctx: Context, items: Option<Node>, seed: Json, n: nat, fuel: nat): Result<seq<Json>, GenError>
    decreases fuel, 1, n
  {
    if n == 0 then Ok([])
    else
      var init :- GenElems(ctx, items, seed, n - 1, fuel);
      if items.None? then Err(MissingItems)
      else
        var e :- GenValue(ctx, items.value, ElementSeed(seed, n - 1), fuel);
        Ok(init + [e])
  }

  /** The fields the constructor assigns for the first `n` properties. */
  function ConstructUpTo(ctx: Context, c: Constructor, seed: Json, n: nat, fuel: nat): Result<seq<(string, Json)>, GenError>
    requires n <= |c.properties|
    decreases fuel, 1, n
  {
    if n == 0 then Ok([])
    else
      var fields :- ConstructUpTo(ctx, c, seed, n - 1, fuel);
      var name := c.properties[n - 1].0;
      var v :- GenValue(ctx, WithRequired(c.properties[n - 1].1, name in c.required), Carried(c.properties, seed, n), fuel);
      Ok(fields + [(name, v)])
  }

  /**
   * `new constructor(mockData)` followed by the JSON round trip: a `null`
   * seed returns early and `new` yields the empty object; otherwise one
   * field per property.
   */
  function Instance(ctx: Context, c: Constructor, seed: Json, fuel: nat): Result<Json, GenError>
    decreases fuel, 1, |c.properties| + 1
  {
    if seed == Null then Ok(Obj([]))
    else
      var fields :- ConstructUpTo(ctx, c, seed, |c.properties|, fuel);
      Ok(Obj(fields))
  }

  /** `mockObject(type, mockData)`: `null` for a type that is not a definition. */
  function MockObjectOf(ctx: Context, typeName: string, seed: Json, fuel: nat): Result<Json, GenError>
    decreases fuel, 2, 0
  {
    match Lookup(ctx.ctors, typeName)
    case None => Ok(Null)
    case Some(c) => Instance(ctx, c, seed, fuel)
  }

  // ---------------------------------------------------------------------
  // The generate pass
  // ---------------------------------------------------------------------

  /**
   * The seed datasets `generate` reads.  An absent `mockData` option reads
   * as no seeds (see Findings in README for the code as written).
   */
  function Seeds(options: Options): seq<(string, Json)> {
    options.mockData.GetOr([])
  }

  /** `options.mockData[name]` when it is a non-empty array, else the empty list. */
  function SeedArray(seeds: seq<(string, Json)>, name: string): seq<Json> {
    match Lookup(seeds, name)
    case Some(v) => if v.Arr? then v.elems else []
    case None => []
  }

  /** `options.mockData[name]` as written: a TypeError when there is no `mockData` option. */
  function SeedArrayAsWritten(mockData: Option<seq<(string, Json)>>, name: string): Result<seq<Json>, string> {
    match mockData
    case None => Err("TypeError: Cannot read property '" + name + "' of undefined")
    case Some(seeds) => Ok(SeedArray(seeds, name))
  }

  /** `limit`: the seed array's length when it is non-empty, else `defaultLimit` (no turn when negative). */
  function DatasetSize(options: Options, seedArr: seq<Json>): nat {
    if |seedArr| > 0 then |seedArr|
    else if options.defaultLimit < 0 then 0
    else options.defaultLimit
  }

  /** `mockData[i]`: seed element `i`, `undefined` past the end. */
  function SeedAt(seedArr: seq<Json>, i: nat): Json {
    if i < |seedArr| then seedArr[i] else Undefined
  }

  /** The data after the pass-through loop has seen the first `n` seed datasets. */
  function PassThroughUpTo(seeds: seq<(string, Json)>, ctors: seq<(string, Constructor)>, data: map<string, Json>, n: nat): map<string, Json>
    requires n <= |seeds|
  {
    if n == 0 then data
    else
      var d := PassThroughUpTo(seeds, ctors, data, n - 1);
      if Lookup(ctors, seeds[n - 1].0).None? then d[seeds[n - 1].0 := seeds[n - 1].1] else d
  }

  /**
   * What `data[name]` holds before the pushes: nothing (or `undefined`)
   * starts a new array and an array is kept; `None` for any other value,
   * which the first `push` fails on.
   */
  function ExistingElems(data: map<string, Json>, name: string): Option<seq<Json>> {
    if name !in data || data[name] == Undefined then Some([])
    else if data[name].Arr? then Some(data[name].elems)
    else None
  }

  /** The first `n` objects pushed, object `i` being `gen` of seed element `i`. */
  function ObjectsUpTo(gen: Json -> Result<Json, GenError>, seedArr: seq<Json>, n: nat): Result<seq<Json>, GenError> {
    if n == 0 then Ok([])
    else
      var init :- ObjectsUpTo(gen, seedArr, n - 1);
      var o :- gen(SeedAt(seedArr, n - 1));
      Ok(init + [o])
  }

  /** `mockObject(name, ·)`. */
  function ObjectFn(ctx: Context, name: string, fuel: nat): Json -> Result<Json, GenError> {
    seed => MockObjectOf(ctx, name, seed, fuel)
  }

  /** How many objects the definitions loop generates for `name`. */
  function SizeFor(options: Options, name: string): nat {
    DatasetSize(options, SeedArray(Seeds(options), name))
  }

  /** The objects the definitions loop generates for `name`. */
  function NewObjects(ctx: Context, name: string, fuel: nat): Result<seq<Json>, GenError> {
    ObjectsUpTo(ObjectFn(ctx, name, fuel), SeedArray(Seeds(ctx.options), name), SizeFor(ctx.options, name))
  }

  function SizeFn(options: Options): string -> nat {
    name => SizeFor(options, name)
  }

  function ObjectsFn(ctx: Context, fuel: nat): string -> Result<seq<Json>, GenError> {
    name => NewObjects(ctx, name, fuel)
  }

  /**
   * One turn of the definitions loop: the `size` objects `objs` appended to
   * dataset `name`.  A dataset that is not an array is left alone when
   * nothing is pushed and fails the first push otherwise.
   */
  function AddDataset(data: map<string, Json>, name: string, size: nat, objs: Result<seq<Json>, GenError>): Result<map<string, Json>, GenError> {
    match ExistingElems(data, name)
    case None => if size == 0 then Ok(data) else Err(NotAnArray(name))
    case Some(existing) =>
      var o :- objs;
      Ok(data[name := Arr(existing + o)])
  }

  /**
   * The data after the definitions loop has seen the first `n` names,
   * `size` and `objects` giving each name's count and generated objects.
   */
  function DatasetsUpTo(names: seq<string>, size: string -> nat, objects: string -> Result<seq<Json>, GenError>,
                        data: map<string, Json>, n: nat): Result<map<string, Json>, GenError>
    requires n <= |names|
  {
    if n == 0 then Ok(data)
    else
      var d :- DatasetsUpTo(names, size, objects, data, n - 1);
      AddDataset(d, names[n - 1], size(names[n - 1]), objects(names[n - 1]))
  }

  /** `generate` on the data `data`: the pass-through loop, then the definitions loop. */
  function GenerateSpec(ctx: Context, data: map<string, Json>, fuel: nat): Result<map<string, Json>, GenError> {
    var seeds := Seeds(ctx.options);
    DatasetsUpTo(Keys(ctx.ctors), SizeFn(ctx.options), ObjectsFn(ctx, fuel),
                 PassThroughUpTo(seeds, ctx.ctors, data, |seeds|), |ctx.ctors|)
  }

  // ---------------------------------------------------------------------
  // Objects
  // ---------------------------------------------------------------------

  /** The value generated for property `k` of a constructor. */
  function FieldValue(ctx: Context, c: Constructor, seed: Json, k: nat, fuel: nat): Result<Json, GenError>
    requires k < |c.properties|
  {
    GenValue(ctx, WithRequired(c.properties[k].1, c.properties[k].0 in c.required), Carried(c.properties, seed, k + 1), fuel)
  }

  /**
   * The constructor assigns one field per property, in order, named after
   * the property and holding that property's generated value; it fails
   * exactly when one of those generations fails.
   */
  lemma {:induction false} ConstructShape(ctx: Context, c: Constructor, seed: Json, n: nat, fuel: nat)
    requires n <= |c.properties|
    ensures ConstructUpTo(ctx, c, seed, n, fuel).Ok? <==> forall k :: 0 <= k < n ==> FieldValue(ctx, c, seed, k, fuel).Ok?
    ensures ConstructUpTo(ctx, c, seed, n, fuel).Ok? ==>
              var fields := ConstructUpTo(ctx, c, seed, n, fuel).value;
              |fields| == n &&
              forall k :: 0 <= k < n ==> fields[k].0 == c.properties[k].0 && FieldValue(ctx, c, seed, k, fuel) == Ok(fields[k].1)
    decreases n
  {
    if n > 0 {
      ConstructShape(ctx, c, seed, n - 1, fuel);
      ConstructStep(ctx, c, seed, n, fuel);
      var prev := ConstructUpTo(ctx, c, seed, n - 1, fuel);
      var last := FieldValue(ctx, c, seed, n - 1, fuel);
      if prev.Err? {
        var k :| 0 <= k < n - 1 && FieldValue(ctx, c, seed, k, fuel).Err?;
        assert ConstructUpTo(ctx, c, seed, n, fuel).Err?;
      } else if last.Err? {
        assert ConstructUpTo(ctx, c, seed, n, fuel).Err?;
      } else {
        var fields := prev.value + [(c.properties[n - 1].0, last.value)];
        assert ConstructUpTo(ctx, c, seed, n, fuel) == Ok(fields);
        forall k | 0 <= k < n
          ensures fields[k].0 == c.properties[k].0 && FieldValue(ctx, c, seed, k, fuel) == Ok(fields[k].1)
        {
          if k < n - 1 { assert fields[k] == prev.value[k]; }
        }
      }
    }
  }

  /** One turn of the constructor's loop. */
  lemma ConstructStep(ctx: Context, c: Constructor, seed: Json, n: nat, fuel: nat)
    requires 0 < n <= |c.properties|
    ensures var prev := ConstructUpTo(ctx, c, seed, n - 1, fuel);
      var last := FieldValue(ctx, c, seed, n - 1, fuel);
      ConstructUpTo(ctx, c, seed, n, fuel) ==
        if prev.Err? then prev.PropagateFailure()
        else if last.Err? then last.PropagateFailure()
        else Ok(prev.value + [(c.properties[n - 1].0, last.value)])
  {
  }

  /**
   * `mockObject`: `null` for a type that is not a definition (whatever the
   * fuel, so it never throws for one); the empty object for a `null` seed;
   * otherwise an object whose keys are exactly the definition's property
   * names, in order (seed fields that are not properties are dropped), each
   * holding its property's generated value.
   */
  lemma MockObjectShape(ctx: Context, typeName: string, seed: Json, fuel: nat)
    ensures Lookup(ctx.ctors, typeName).None? ==> MockObjectOf(ctx, typeName, seed, fuel) == Ok(Null)
    ensures Lookup(ctx.ctors, typeName).Some? && seed == Null ==> MockObjectOf(ctx, typeName, seed, fuel) == Ok(Obj([]))
    ensures Lookup(ctx.ctors, typeName).Some? && seed != Null && MockObjectOf(ctx, typeName, seed, fuel).Ok? ==>
              var c := Lookup(ctx.ctors, typeName).value;
              var v := MockObjectOf(ctx, typeName, seed, fuel).value;
              v.Obj? && Keys(v.fields) == Keys(c.properties) &&
              forall k :: 0 <= k < |c.properties| ==> FieldValue(ctx, c, seed, k, fuel) == Ok(v.fields[k].1)
  {
    match Lookup(ctx.ctors, typeName)
    case None =>
    case Some(c) =>
      ConstructShape(ctx, c, seed, |c.properties|, fuel);
  }

  /**
   * `mockProperty` after `n` properties is the seed entry of the last
   * property up to there that has one.
   */
  lemma {:induction false} CarriedIsLastSeeded(props: seq<(string, Node)>, seed: Json, j: nat, n: nat)
    requires j < n <= |props|
    requires Truthy(seed) && Get(seed, props[j].0) != Undefined
    requires forall i :: j < i < n ==> Get(seed, props[i].0) == Undefined
    ensures Carried(props, seed, n) == Get(seed, props[j].0)
    decreases n
  {
    if n - 1 > j {
      CarriedIsLastSeeded(props, seed, j, n - 1);
    }
  }

  /** With a falsy seed, or no seed entry so far, `mockProperty` is still `undefined`. */
  lemma {:induction false} CarriedUnseeded(props: seq<(string, Node)>, seed: Json, n: nat)
    requires n <= |props|
    requires !Truthy(seed) || forall i :: 0 <= i < n ==> Get(seed, props[i].0) == Undefined
    ensures Carried(props, seed, n) == Undefined
    decreases n
  {
    if n > 0 {
      CarriedUnseeded(props, seed, n - 1);
    }
  }

  /**
   * A scalar property whose own seed entry is truthy takes that value
   * verbatim (a seeded `id` of 123 stays 123).
   */
  lemma SeededFieldVerbatim(ctx: Context, c: Constructor, seed: Json, k: nat, fuel: nat)
    requires k < |c.properties| && fuel > 0
    requires Truthy(seed) && Truthy(Get(seed, c.properties[k].0))
    requires IsScalarType(GetItemFormat(c.properties[k].1).typ)
    ensures FieldValue(ctx, c, seed, k, fuel) == Ok(Get(seed, c.properties[k].0))
  {
    assert Get(seed, c.properties[k].0) != Undefined;
  }

  /**
   * A required string, number or integer property with no explicit
   * pattern and no `minLength`, reached with no carried seed, is sampled
   * from a pattern whose lower bound is 1.
   */
  lemma RequiredFieldSampledFromNonEmptyPattern(ctx: Context, c: Constructor, seed: Json, k: nat, fuel: nat)
    requires k < |c.properties| && fuel > 0
    requires var p := c.properties[k].1;
      p.schema.None? && !HasRef(p) && !HasPattern(p) && p.minLength.None?
      && (p.typ == Some("string") || p.typ == Some("number") || p.typ == Some("integer"))
    requires c.properties[k].0 in c.required
    requires !Truthy(Carried(c.properties, seed, k + 1))
    ensures exists pattern :: FieldValue(ctx, c, seed, k, fuel) == Ok(Str(ctx.sample(pattern)))
              && ReadRepetition(pattern).Some? && ReadRepetition(pattern).value.0 == 1
  {
    var node := WithRequired(c.properties[k].1, true);
    assert GetItemFormat(node) == node;
    PatternBounds(node, ctx.options);
    var pattern := GetItemFormatPattern(node, ctx.options).value;
    assert FieldValue(ctx, c, seed, k, fuel) == Ok(Str(ctx.sample(pattern)));
  }

  // ---------------------------------------------------------------------
  // Arrays
  // ---------------------------------------------------------------------

  /** The array loop pushes `n` elements, element `i` generated from `items` and seed element `i`. */
  lemma {:induction false} GenElemsShape(ctx: Context, items: Option<Node>, seed: Json, n: nat, fuel: nat)
    ensures GenElems(ctx, items, seed, n, fuel).Ok? ==>
              var elems := GenElems(ctx, items, seed, n, fuel).value;
              |elems| == n && (n > 0 ==> items.Some?) &&
              forall i :: 0 <= i < n ==> items.Some? && GenValue(ctx, items.value, ElementSeed(seed, i), fuel) == Ok(elems[i])
    decreases n
  {
    if n > 0 {
      GenElemsShape(ctx, items, seed, n - 1, fuel);
    }
  }

  /**
   * An array is as long as a truthy seed (1 without one), and element `i`
   * is generated from the `items` node and the seed's element `i` (`null`
   * without a seed).
   */
  lemma ArrayValueShape(ctx: Context, node: Node, seed: Json, fuel: nat)
    requires GetItemFormat(node).typ == Some("array")
    requires GenValue(ctx, node, seed, fuel).Ok?
    ensures var v := GenValue(ctx, node, seed, fuel).value;
            var fmt := GetItemFormat(node);
            v.Arr? && |v.elems| == (if Truthy(seed) then Length(seed) else 1) &&
            forall i :: 0 <= i < |v.elems| ==>
              fmt.items.Some? && GenValue(ctx, fmt.items.value, if Truthy(seed) then At(seed, i) else Null, fuel - 1) == Ok(v.elems[i])
  {
    var fmt := GetItemFormat(node);
    GenElemsShape(ctx, fmt.items, seed, ArrayLength(seed), fuel - 1);
  }

  /** A `file` property is always `null`; any non-scalar, non-array type is a `mockObject` of that name. */
  lemma FileAndReferenceValues(ctx: Context, node: Node, seed: Json, fuel: nat)
    requires fuel > 0
    ensures GetItemFormat(node).typ == Some("file") ==> GenValue(ctx, node, seed, fuel) == Ok(Null)
    ensures var t := GetItemFormat(node).typ;
      !IsScalarType(t) && t != Some("array") && t != Some("file") ==>
        GenValue(ctx, node, seed, fuel) == MockObjectOf(ctx, TypeName(t), seed, fuel - 1)
  {
  }

  // ---------------------------------------------------------------------
  // Fuel
  // ---------------------------------------------------------------------

  /** A value generated within some stack depth is generated the same way with a deeper stack. */
  lemma {:induction false} GenValueMoreFuel(ctx: Context, node: Node, seed: Json, fuel: nat, more: nat)
    requires fuel <= more && GenValue(ctx, node, seed, fuel).Ok?
    ensures GenValue(ctx, node, seed, more) == GenValue(ctx, node, seed, fuel)
    decreases fuel, 0, 0
  {
    var fmt := GetItemFormat(node);
    if !IsScalarType(fmt.typ) {
      if fmt.typ == Some("array") {
        GenElemsMoreFuel(ctx, fmt.items, seed, ArrayLength(seed), fuel - 1, more - 1);
      } else if fmt.typ != Some("file") {
        MockObjectMoreFuel(ctx, TypeName(fmt.typ), seed, fuel - 1, more - 1);
      }
    }
  }

  lemma {:induction false} GenElemsMoreFuel(ctx: Context, items: Option<Node>, seed: Json, n: nat, fuel: nat, more: nat)
    requires fuel <= more && GenElems(ctx, items, seed, n, fuel).Ok?
    ensures GenElems(ctx, items, seed, n, more) == GenElems(ctx, items, seed, n, fuel)
    decreases fuel, 1, n
  {
    if n > 0 {
      GenElemsStep(ctx, items, seed, n, fuel);
      GenElemsStep(ctx, items, seed, n, more);
      GenElemsMoreFuel(ctx, items, seed, n - 1, fuel, more);
      GenValueMoreFuel(ctx, items.value, ElementSeed(seed, n - 1), fuel, more);
    }
  }

  /** One turn of the array loop. */
  lemma GenElemsStep(ctx: Context, items: Option<Node>, seed: Json, n: nat, fuel: nat)
    requires n > 0
    ensures var prev := GenElems(ctx, items, seed, n - 1, fuel);
      GenElems(ctx, items, seed, n, fuel) ==
        if prev.Err? then prev.PropagateFailure()
        else if items.None? then Err(MissingItems)
        else
          var e := GenValue(ctx, items.value, ElementSeed(seed, n - 1), fuel);
          if e.Err? then e.PropagateFailure() else Ok(prev.value + [e.value])
  {
  }

  lemma {:induction false} ConstructMoreFuel(ctx: Context, c: Constructor, seed: Json, n: nat, fuel: nat, more: nat)
    requires n <= |c.properties|
    requires fuel <= more && ConstructUpTo(ctx, c, seed, n, fuel).Ok?
    ensures ConstructUpTo(ctx, c, seed, n, more) == ConstructUpTo(ctx, c, seed, n, fuel)
    decreases fuel, 1, n
  {
    if n > 0 {
      ConstructMoreFuel(ctx, c, seed, n - 1, fuel, more);
      var name := c.properties[n - 1].0;
      GenValueMoreFuel(ctx, WithRequired(c.properties[n - 1].1, name in c.required), Carried(c.properties, seed, n), fuel, more);
    }
  }

  lemma {:induction false} MockObjectMoreFuel(ctx: Context, typeName: string, seed: Json, fuel: nat, more: nat)
    requires fuel <= more && MockObjectOf(ctx, typeName, seed, fuel).Ok?
    ensures MockObjectOf(ctx, typeName, seed, more) == MockObjectOf(ctx, typeName, seed, fuel)
    decreases fuel, 2, 0
  {
    match Lookup(ctx.ctors, typeName)
    case None =>
    case Some(c) =>
      if seed != Null {
        ConstructMoreFuel(ctx, c, seed, |c.properties|, fuel, more);
      }
  }

  // ---------------------------------------------------------------------
  // A failing turn fails the whole loop
  // ---------------------------------------------------------------------

  lemma {:induction false} GenElemsErrSticks(ctx: Context, items: Option<Node>, seed: Json, i: nat, n: nat, fuel: nat)
    requires i <= n && GenElems(ctx, items, seed, i, fuel).Err?
    ensures GenElems(ctx, items, seed, n, fuel) == GenElems(ctx, items, seed, i, fuel)
    decreases n
  {
    if i < n {
      GenElemsErrSticks(ctx, items, seed, i, n - 1, fuel);
    }
  }

  lemma {:induction false} ConstructErrSticks(ctx: Context, c: Constructor, seed: Json, i: nat, n: nat, fuel: nat)
    requires i <= n <= |c.properties| && ConstructUpTo(ctx, c, seed, i, fuel).Err?
    ensures ConstructUpTo(ctx, c, seed, n, fuel) == ConstructUpTo(ctx, c, seed, i, fuel)
    decreases n
  {
    if i < n {
      ConstructErrSticks(ctx, c, seed, i, n - 1, fuel);
    }
  }

  lemma {:induction false} ObjectsErrSticks(gen: Json -> Result<Json, GenError>, seedArr: seq<Json>, i: nat, n: nat)
    requires i <= n && ObjectsUpTo(gen, seedArr, i).Err?
    ensures ObjectsUpTo(gen, seedArr, n) == ObjectsUpTo(gen, seedArr, i)
    decreases n
  {
    if i < n {
      ObjectsErrSticks(gen, seedArr, i, n - 1);
    }
  }

  lemma {:induction false} DatasetsErrSticks(names: seq<string>, size: string -> nat, objects: string -> Result<seq<Json>, GenError>,
                                             data: map<string, Json>, i: nat, n: nat)
    requires i <= n <= |names| && DatasetsUpTo(names, size, objects, data, i).Err?
    ensures DatasetsUpTo(names, size, objects, data, n) == DatasetsUpTo(names, size, objects, data, i)
    decreases n
  {
    if i < n {
      DatasetsErrSticks(names, size, objects, data, i, n - 1);
    }
  }

  // ---------------------------------------------------------------------
  // Datasets
  // ---------------------------------------------------------------------

  /** The pushes succeed exactly when every object does, object `i` coming from seed element `i`. */
  lemma {:induction false} ObjectsShape(gen: Json -> Result<Json, GenError>, seedArr: seq<Json>, n: nat)
    ensures ObjectsUpTo(gen, seedArr, n).Ok? <==> forall i :: 0 <= i < n ==> gen(SeedAt(seedArr, i)).Ok?
    ensures ObjectsUpTo(gen, seedArr, n).Ok? ==>
              var objs := ObjectsUpTo(gen, seedArr, n).value;
              |objs| == n && forall i :: 0 <= i < n ==> gen(SeedAt(seedArr, i)) == Ok(objs[i])
    decreases n
  {
    if n > 0 {
      ObjectsShape(gen, seedArr, n - 1);
    }
  }

  /**
   * The definitions loop generates `SizeFor` objects for `name`: as many as
   * its seed array holds when that is non-empty, `defaultLimit` otherwise;
   * object `i` is `mockObject(name, mockData[i])`.
   */
  lemma NewObjectsShape(ctx: Context, name: string, fuel: nat)
    ensures var seedArr := SeedArray(Seeds(ctx.options), name);
      SizeFor(ctx.options, name) == (if |seedArr| > 0 then |seedArr| else if ctx.options.defaultLimit < 0 then 0 else ctx.options.defaultLimit)
    ensures var seedArr := SeedArray(Seeds(ctx.options), name);
      NewObjects(ctx, name, fuel).Ok? <==>
        forall i :: 0 <= i < SizeFor(ctx.options, name) ==> MockObjectOf(ctx, name, SeedAt(seedArr, i), fuel).Ok?
    ensures var seedArr := SeedArray(Seeds(ctx.options), name);
      NewObjects(ctx, name, fuel).Ok? ==>
        |NewObjects(ctx, name, fuel).value| == SizeFor(ctx.options, name) &&
        forall i :: 0 <= i < SizeFor(ctx.options, name) ==>
          MockObjectOf(ctx, name, SeedAt(seedArr, i), fuel) == Ok(NewObjects(ctx, name, fuel).value[i])
  {
    ObjectsShape(ObjectFn(ctx, name, fuel), SeedArray(Seeds(ctx.options), name), SizeFor(ctx.options, name));
  }

  /**
   * The pass-through loop stores every seed dataset whose name is not a
   * definition (the last one of a name winning) and leaves every other
   * entry as it was.
   */
  lemma {:induction false} PassThroughAt(seeds: seq<(string, Json)>, ctors: seq<(string, Constructor)>, data: map<string, Json>, n: nat, key: string)
    requires n <= |seeds|
    ensures var d := PassThroughUpTo(seeds, ctors, data, n);
      if Lookup(ctors, key).None? && Lookup(seeds[..n], key).Some? then key in d && d[key] == Lookup(seeds[..n], key).value
      else (key in d <==> key in data) && (key in data ==> d[key] == data[key])
    decreases n
  {
    if n > 0 {
      PassThroughAt(seeds, ctors, data, n - 1, key);
      assert seeds[..n][..n - 1] == seeds[..n - 1];
    }
  }

  /**
   * What the definitions loop leaves in `after` for dataset `name`, starting
   * from `before`: the entries already there (none when there were none)
   * followed by the generated objects; a dataset that is not an array is
   * only ever left alone, when nothing is pushed to it.
   */
  predicate DatasetFilled(before: map<string, Json>, after: map<string, Json>, name: string, size: nat, objs: Result<seq<Json>, GenError>) {
    match ExistingElems(before, name)
    case None => size == 0 && name in before && name in after && after[name] == before[name]
    case Some(existing) => objs.Ok? && name in after && after[name] == Arr(existing + objs.value)
  }

  /** One turn of the definitions loop fills `name` and touches nothing else. */
  lemma AddDatasetEffect(data: map<string, Json>, name: string, size: nat, objs: Result<seq<Json>, GenError>)
    requires AddDataset(data, name, size, objs).Ok?
    ensures DatasetFilled(data, AddDataset(data, name, size, objs).value, name, size, objs)
    ensures forall key :: key != name ==> SameEntry(AddDataset(data, name, size, objs).value, data, key)
  {
  }

  /** One turn of the definitions loop. */
  lemma DatasetsStep(names: seq<string>, size: string -> nat, objects: string -> Result<seq<Json>, GenError>,
                     data: map<string, Json>, n: nat)
    requires 0 < n <= |names|
    ensures var prev := DatasetsUpTo(names, size, objects, data, n - 1);
      DatasetsUpTo(names, size, objects, data, n) ==
        if prev.Err? then prev.PropagateFailure() else AddDataset(prev.value, names[n - 1], size(names[n - 1]), objects(names[n - 1]))
  {
  }

  /** `DatasetFilled` depends only on what `before` and `after` hold for `name`. */
  lemma DatasetFilledTransfer(b1: map<string, Json>, a1: map<string, Json>, b2: map<string, Json>, a2: map<string, Json>,
                              name: string, size: nat, objs: Result<seq<Json>, GenError>)
    requires DatasetFilled(b1, a1, name, size, objs)
    requires ExistingElems(b1, name) == ExistingElems(b2, name)
    requires name in b1 ==> name in b2 && b2[name] == b1[name]
    requires name in a2 && a2[name] == a1[name]
    ensures DatasetFilled(b2, a2, name, size, objs)
  {
  }

  /** `a` and `b` agree on `key`: both lack it or both hold the same value. */
  predicate SameEntry(a: map<string, Json>, b: map<string, Json>, key: string) {
    (key in a <==> key in b) && (key in a ==> a[key] == b[key])
  }

  /**
   * The turns from `m` to `n` of the definitions loop leave alone every key
   * they are not about (and a successful run succeeds at every turn).
   */
  lemma {:induction false} DatasetsFrame(names: seq<string>, size: string -> nat, objects: string -> Result<seq<Json>, GenError>,
                                         data: map<string, Json>, m: nat, n: nat, key: string)
    requires m <= n <= |names|
    requires DatasetsUpTo(names, size, objects, data, n).Ok?
    requires forall j :: m <= j < n ==> names[j] != key
    ensures DatasetsUpTo(names, size, objects, data, m).Ok?
    ensures SameEntry(DatasetsUpTo(names, size, objects, data, n).value, DatasetsUpTo(names, size, objects, data, m).value, key)
    decreases n
  {
    if m < n {
      DatasetsStep(names, size, objects, data, n);
      var prev := DatasetsUpTo(names, size, objects, data, n - 1);
      assert prev.Ok?;
      AddDatasetEffect(prev.value, names[n - 1], size(names[n - 1]), objects(names[n - 1]));
      DatasetsFrame(names, size, objects, data, m, n - 1, key);
    }
  }

  /** With distinct names, turn `k` of the definitions loop fills dataset `names[k]` for good. */
  lemma DatasetsFill(names: seq<string>, size: string -> nat, objects: string -> Result<seq<Json>, GenError>,
                     data: map<string, Json>, k: nat, n: nat)
    requires k < n <= |names|
    requires forall i, j :: 0 <= i < j < |names| ==> names[i] != names[j]
    requires DatasetsUpTo(names, size, objects, data, n).Ok?
    ensures DatasetFilled(data, DatasetsUpTo(names, size, objects, data, n).value, names[k], size(names[k]), objects(names[k]))
  {
    var name := names[k];
    DatasetsFrame(names, size, objects, data, k + 1, n, name);
    DatasetsStep(names, size, objects, data, k + 1);
    DatasetsFrame(names, size, objects, data, 0, k, name);
    var before := DatasetsUpTo(names, size, objects, data, k).value;
    var after := DatasetsUpTo(names, size, objects, data, k + 1).value;
    AddDatasetEffect(before, name, size(name), objects(name));
    DatasetFilledTransfer(before, after, data, DatasetsUpTo(names, size, objects, data, n).value, name, size(name), objects(name));
  }

  /**
   * With distinct names, the definitions loop fills every dataset it has
   * seen and leaves every other entry as it was.
   */
  lemma DatasetsAt(names: seq<string>, size: string -> nat, objects: string -> Result<seq<Json>, GenError>,
                   data: map<string, Json>, n: nat)
    requires n <= |names|
    requires forall i, j :: 0 <= i < j < |names| ==> names[i] != names[j]
    requires DatasetsUpTo(names, size, objects, data, n).Ok?
    ensures var d := DatasetsUpTo(names, size, objects, data, n).value;
      forall k :: 0 <= k < n ==> DatasetFilled(data, d, names[k], size(names[k]), objects(names[k]))
    ensures var d := DatasetsUpTo(names, size, objects, data, n).value;
      forall key :: key !in names[..n] ==> SameEntry(d, data, key)
  {
    var d := DatasetsUpTo(names, size, objects, data, n).value;
    forall k | 0 <= k < n ensures DatasetFilled(data, d, names[k], size(names[k]), objects(names[k])) {
      DatasetsFill(names, size, objects, data, k, n);
    }
    forall key | key !in names[..n] ensures SameEntry(d, data, key) {
      forall j | 0 <= j < n ensures names[j] != key {
        assert names[j] == names[..n][j];
      }
      DatasetsFrame(names, size, objects, data, 0, n, key);
    }
  }

  /**
   * `generate`: every definition's dataset is its earlier entries followed
   * by `SizeFor` generated objects (see `ObjectsShape`); every seed dataset
   * named after no definition is copied verbatim; every other entry is left
   * as it was.
   */
  lemma GenerateContents(ctx: Context, data: map<string, Json>, fuel: nat)
    requires UniqueKeys(ctx.ctors)
    requires GenerateSpec(ctx, data, fuel).Ok?
    ensures var d := GenerateSpec(ctx, data, fuel).value;
      forall k :: 0 <= k < |ctx.ctors| ==>
        DatasetFilled(data, d, ctx.ctors[k].0, SizeFor(ctx.options, ctx.ctors[k].0), NewObjects(ctx, ctx.ctors[k].0, fuel))
    ensures var d := GenerateSpec(ctx, data, fuel).value;
      forall key :: key !in Keys(ctx.ctors) && Lookup(Seeds(ctx.options), key).Some? ==>
        key in d && d[key] == Lookup(Seeds(ctx.options), key).value
    ensures var d := GenerateSpec(ctx, data, fuel).value;
      forall key :: key !in Keys(ctx.ctors) && Lookup(Seeds(ctx.options), key).None? ==>
        (key in d <==> key in data) && (key in data ==> d[key] == data[key])
  {
    var seeds := Seeds(ctx.options);
    var names := Keys(ctx.ctors);
    var p := PassThroughUpTo(seeds, ctx.ctors, data, |seeds|);
    var d := GenerateSpec(ctx, data, fuel).value;
    assert seeds[..|seeds|] == seeds;
    assert names[..|names|] == names;
    DatasetsAt(names, SizeFn(ctx.options), ObjectsFn(ctx, fuel), p, |names|);
    forall k | 0 <= k < |ctx.ctors|
      ensures DatasetFilled(data, d, ctx.ctors[k].0, SizeFor(ctx.options, ctx.ctors[k].0), NewObjects(ctx, ctx.ctors[k].0, fuel))
    {
      var name := ctx.ctors[k].0;
      assert names[k] == name;
      LookupSpec(ctx.ctors, name);
      PassThroughAt(seeds, ctx.ctors, data, |seeds|, name);
      DatasetFilledTransfer(p, d, data, d, name, SizeFor(ctx.options, name), NewObjects(ctx, name, fuel));
    }
    forall key | key !in names ensures Lookup(ctx.ctors, key).None? {
      LookupSpec(ctx.ctors, key);
      forall k | 0 <= k < |ctx.ctors| ensures ctx.ctors[k].0 != key {
        assert names[k] == ctx.ctors[k].0;
      }
    }
    forall key | key !in names
      ensures Lookup(seeds, key).Some? ==> key in d && d[key] == Lookup(seeds, key).value
      ensures Lookup(seeds, key).None? ==> (key in d <==> key in data) && (key in data ==> d[key] == data[key])
    {
      PassThroughAt(seeds, ctx.ctors, data, |seeds|, key);
    }
  }

  /**
   * The code as written reads `options.mockData[name]` even when the
   * option is absent; wherever it does not throw it agrees with `Seeds`,
   * and with no seeds every definition gets `defaultLimit` objects.
   */
  lemma SeedArrayCorrected(options: Options, name: string)
    ensures SeedArrayAsWritten(options.mockData, name).Ok? ==>
              SeedArrayAsWritten(options.mockData, name).value == SeedArray(Seeds(options), name)
    ensures options.mockData.None? ==> SeedArrayAsWritten(options.mockData, name).Err?
    ensures options.mockData.None? ==>
              DatasetSize(options, SeedArray(Seeds(options), name)) == (if options.defaultLimit < 0 then 0 else options.defaultLimit)
  {
  }

  /** One turn of the pass-through loop. */
  lemma PassThroughStep(seeds: seq<(string, Json)>, ctors: seq<(string, Constructor)>, data: map<string, Json>, i: nat)
    requires i < |seeds|
    ensures var d := PassThroughUpTo(seeds, ctors, data, i);
      PassThroughUpTo(seeds, ctors, data, i + 1) == if Lookup(ctors, seeds[i].0).None? then d[seeds[i].0 := seeds[i].1] else d
  {
  }

  /** A successful element extends the array by one. */
  lemma GenElemsPush(ctx: Context, items: Option<Node>, seed: Json, i: nat, fuel: nat, elems: seq<Json>, e: Json)
    requires GenElems(ctx, items, seed, i, fuel) == Ok(elems)
    requires items.Some? && GenValue(ctx, items.value, ElementSeed(seed, i), fuel) == Ok(e)
    ensures GenElems(ctx, items, seed, i + 1, fuel) == Ok(elems + [e])
  {
    GenElemsStep(ctx, items, seed, i + 1, fuel);
  }

  /** A missing `items` or a failing element fails the whole array. */
  lemma GenElemsFail(ctx: Context, items: Option<Node>, seed: Json, i: nat, n: nat, fuel: nat, err: GenError)
    requires i < n
    requires GenElems(ctx, items, seed, i, fuel).Ok?
    requires if items.None? then err == MissingItems else GenValue(ctx, items.value, ElementSeed(seed, i), fuel) == Err(err)
    ensures GenElems(ctx, items, seed, n, fuel) == Err(err)
  {
    GenElemsStep(ctx, items, seed, i + 1, fuel);
    GenElemsErrSticks(ctx, items, seed, i + 1, n, fuel);
  }

  /** A successful turn of the definitions loop. */
  lemma DatasetsPush(names: seq<string>, size: string -> nat, objects: string -> Result<seq<Json>, GenError>,
                     data: map<string, Json>, j: nat, d: map<string, Json>, d': map<string, Json>)
    requires j < |names|
    requires DatasetsUpTo(names, size, objects, data, j) == Ok(d)
    requires AddDataset(d, names[j], size(names[j]), objects(names[j])) == Ok(d')
    ensures DatasetsUpTo(names, size, objects, data, j + 1) == Ok(d')
  {
  }

  /** A failing turn fails the whole definitions loop. */
  lemma DatasetsFail(names: seq<string>, size: string -> nat, objects: string -> Result<seq<Json>, GenError>,
                     data: map<string, Json>, j: nat, d: map<string, Json>, e: GenError)
    requires j < |names|
    requires DatasetsUpTo(names, size, objects, data, j) == Ok(d)
    requires AddDataset(d, names[j], size(names[j]), objects(names[j])) == Err(e)
    ensures DatasetsUpTo(names, size, objects, data, |names|) == Err(e)
  {
    DatasetsErrSticks(names, size, objects, data, j + 1, |names|);
  }

  /** A successful property extends the constructor's fields by one. */
  lemma ConstructPush(ctx: Context, c: Constructor, seed: Json, i: nat, fuel: nat, fields: seq<(string, Json)>, v: Json)
    requires i < |c.properties|
    requires ConstructUpTo(ctx, c, seed, i, fuel) == Ok(fields)
    requires FieldValue(ctx, c, seed, i, fuel) == Ok(v)
    ensures ConstructUpTo(ctx, c, seed, i + 1, fuel) == Ok(fields + [(c.properties[i].0, v)])
  {
    ConstructStep(ctx, c, seed, i + 1, fuel);
  }

  /** A failing property fails the whole constructor. */
  lemma ConstructFail(ctx: Context, c: Constructor, seed: Json, i: nat, fuel: nat, e: GenError)
    requires i < |c.properties|
    requires ConstructUpTo(ctx, c, seed, i, fuel).Ok?
    requires FieldValue(ctx, c, seed, i, fuel) == Err(e)
    ensures ConstructUpTo(ctx, c, seed, |c.properties|, fuel) == Err(e)
  {
    ConstructStep(ctx, c, seed, i + 1, fuel);
    ConstructErrSticks(ctx, c, seed, i + 1, |c.properties|, fuel);
  }

  /** `AddDataset` on a dataset that is missing, `undefined` or an array. */
  lemma AddDatasetArray(data: map<string, Json>, name: string, size: nat, objs: Result<seq<Json>, GenError>)
    requires ExistingElems(data, name).Some?
    ensures AddDataset(data, name, size, objs) ==
      if objs.Err? then Err(objs.error) else Ok(data[name := Arr(ExistingElems(data, name).value + objs.value)])
  {
  }

  /** `AddDataset` on a dataset that holds some other value. */
  lemma AddDatasetOther(data: map<string, Json>, name: string, size: nat, objs: Result<seq<Json>, GenError>)
    requires ExistingElems(data, name).None?
    ensures AddDataset(data, name, size, objs) == if size == 0 then Ok(data) else Err(NotAnArray(name))
  {
  }

  /** A successful push extends the pushed objects by one. */
  lemma ObjectsPush(gen: Json -> Result<Json, GenError>, seedArr: seq<Json>, k: nat, pushed: seq<Json>, o: Json)
    requires ObjectsUpTo(gen, seedArr, k) == Ok(pushed)
    requires gen(SeedAt(seedArr, k)) == Ok(o)
    ensures ObjectsUpTo(gen, seedArr, k + 1) == Ok(pushed + [o])
  {
  }

  /** A failing push fails all `limit` pushes. */
  lemma ObjectsFail(gen: Json -> Result<Json, GenError>, seedArr: seq<Json>, k: nat, limit: nat, e: GenError)
    requires k < limit
    requires ObjectsUpTo(gen, seedArr, k).Ok?
    requires gen(SeedAt(seedArr, k)) == Err(e)
    ensures ObjectsUpTo(gen, seedArr, limit) == Err(e)
  {
    ObjectsErrSticks(gen, seedArr, k + 1, limit);
  }

  // ---------------------------------------------------------------------
  // The MockData object
  // ---------------------------------------------------------------------

  /**
   * A `MockData` instance: the document and options it was built with, the
   * data it has generated so far and, once `setDefinitions` has run, its
   * constructors.  Every method is proved against the functions above.
   */
  class MockData {
    const config: Document
    const options: Options
    const sample: string -> string
    var data: map<string, Json>
    var definitions: Option<seq<(string, Constructor)>>

    /** `this.definitions` is unset or holds one constructor per definition of the document. */
    predicate Valid()
      reads this
    {
      definitions.None? || definitions == Some(Constructors(config.definitions))
    }

    /** What generation reads, with the constructors `setDefinitions` builds. */
    function Ctx(): Context {
      Context(Constructors(config.definitions), options, sample)
    }

    constructor(config: Document, options: Options, sample: string -> string)
      ensures this.config == config && this.options == options && this.sample == sample
      ensures data == map[] && definitions == None
      ensures Valid()
    {
      this.config := config;
      this.options := options;
      this.sample := sample;
      data := map[];
      definitions := None;
    }

    /** `setDefinitions`: builds the constructors once, in the document's order. */
    method SetDefinitions()
      requires Valid()
      modifies this`definitions
      ensures definitions == Some(Ctx().ctors)
    {
      if definitions.None? {
        var defs := config.definitions;
        var ctors: seq<(string, Constructor)> := [];
        var i := 0;
        while i < |defs|
          invariant 0 <= i <= |defs|
          invariant |ctors| == i
          invariant forall k :: 0 <= k < i ==> ctors[k] == (defs[k].0, GetConstructor(defs[k].1))
        {
          ctors := ctors + [(defs[i].0, GetConstructor(defs[i].1))];
          i := i + 1;
        }
        assert ctors == Constructors(defs);
        definitions := Some(ctors);
      }
    }

    /** `mockObject(type, mockData)`. */
    method MockObject(typeName: string, seed: Json, fuel: nat) returns (r: Result<Json, GenError>)
      requires Valid()
      modifies this`definitions
      ensures definitions == Some(Ctx().ctors)
      ensures r == MockObjectOf(Ctx(), typeName, seed, fuel)
      decreases fuel, 2, 0
    {
      SetDefinitions();
      var ctor := Lookup(definitions.value, typeName);
      if ctor.None? {
        return Ok(Null);
      }
      r := Construct(ctor.value, seed, fuel);
    }

    /**
     * The constructor `getConstructor` returns, applied with `new` and
     * followed by the JSON round trip.
     */
    method Construct(c: Constructor, seed: Json, fuel: nat) returns (r: Result<Json, GenError>)
      requires Valid()
      modifies this`definitions
      ensures Valid() && (old(definitions).Some? ==> definitions == old(definitions))
      ensures r == Instance(Ctx(), c, seed, fuel)
      decreases fuel, 1, |c.properties| + 1
    {
      if seed == Null {
        return Ok(Obj([]));
      }
      ghost var ctx := Ctx();
      var props := c.properties;
      var fields: seq<(string, Json)> := [];
      var mockProperty := Undefined;
      var i := 0;
      while i < |props|
        invariant 0 <= i <= |props|
        invariant Valid() && (old(definitions).Some? ==> definitions == old(definitions))
        invariant mockProperty == Carried(props, seed, i)
        invariant ConstructUpTo(ctx, c, seed, i, fuel) == Ok(fields)
      {
        var name := props[i].0;
        if Truthy(seed) && Get(seed, name) != Undefined {
          mockProperty := Get(seed, name);
        }
        assert mockProperty == Carried(props, seed, i + 1);
        var v := GenerateValue(WithRequired(props[i].1, name in c.required), mockProperty, fuel);
        assert v == FieldValue(ctx, c, seed, i, fuel);
        if v.Err? {
          ConstructFail(ctx, c, seed, i, fuel, v.error);
          return Err(v.error);
        }
        ConstructPush(ctx, c, seed, i, fuel, fields, v.value);
        fields := fields + [(name, v.value)];
        i := i + 1;
      }
      return Ok(Obj(fields));
    }

    /** `generateValue(property, mockProperty)`. */
    method GenerateValue(property: Node, mockProperty: Json, fuel: nat) returns (r: Result<Json, GenError>)
      requires Valid()
      modifies this`definitions
      ensures Valid() && (old(definitions).Some? ==> definitions == old(definitions))
      ensures r == GenValue(Ctx(), property, mockProperty, fuel)
      decreases fuel, 0, 0
    {
      if fuel == 0 {
        return Err(StackOverflow);
      }
      var itemFormat := GetItemFormat(property);
      var typ := itemFormat.typ;
      if IsScalarType(typ) {
        if Truthy(mockProperty) {
          return Ok(mockProperty);
        }
        return Ok(Str(sample(GetItemFormatPattern(itemFormat, options).GetOr(""))));
      } else if typ == Some("array") {
        var elements: seq<Json> := [];
        var length := ArrayLength(mockProperty);
        var i := 0;
        while i < length
          invariant 0 <= i <= length
          invariant Valid() && (old(definitions).Some? ==> definitions == old(definitions))
          invariant GenElems(Ctx(), itemFormat.items, mockProperty, i, fuel - 1) == Ok(elements)
        {
          if itemFormat.items.None? {
            GenElemsFail(Ctx(), itemFormat.items, mockProperty, i, length, fuel - 1, MissingItems);
            return Err(MissingItems);
          }
          var e := GenerateValue(itemFormat.items.value, ElementSeed(mockProperty, i), fuel - 1);
          if e.Err? {
            GenElemsFail(Ctx(), itemFormat.items, mockProperty, i, length, fuel - 1, e.error);
            return Err(e.error);
          }
          GenElemsPush(Ctx(), itemFormat.items, mockProperty, i, fuel - 1, elements, e.value);
          elements := elements + [e.value];
          i := i + 1;
        }
        return Ok(Arr(elements));
      } else if typ == Some("file") {
        return Ok(Null);
      }
      r := MockObject(TypeName(typ), mockProperty, fuel - 1);
    }

    /**
     * The `for` loop of `generate`'s second pass: `limit` objects of type
     * `name` are pushed, one at a time, onto the array stored under `name`.
     */
    method PushLoop(name: string, seedArr: seq<Json>, limit: nat, fuel: nat) returns (r: Result<seq<Json>, GenError>)
      requires definitions == Some(Ctx().ctors)
      requires name in data && data[name].Arr?
      modifies this`data, this`definitions
      ensures definitions == Some(Ctx().ctors)
      ensures r == ObjectsUpTo(ObjectFn(Ctx(), name, fuel), seedArr, limit)
      ensures r.Ok? ==> data == old(data)[name := Arr(old(data)[name].elems + r.value)]
    {
      ghost var gen := ObjectFn(Ctx(), name, fuel);
      var start := data;
      var dataset := data[name].elems;
      var k := 0;
      var pushed: seq<Json> := [];
      while k < limit
        invariant 0 <= k <= limit
        invariant definitions == Some(Ctx().ctors)
        invariant ObjectsUpTo(gen, seedArr, k) == Ok(pushed)
        invariant dataset == start[name].elems + pushed
        invariant data == start[name := Arr(dataset)]
      {
        var o := MockObject(name, SeedAt(seedArr, k), fuel);
        if o.Err? {
          ObjectsFail(gen, seedArr, k, limit, o.error);
          return Err(o.error);
        }
        ObjectsPush(gen, seedArr, k, pushed, o.value);
        dataset := dataset + [o.value];
        data := start[name := Arr(dataset)];
        pushed := pushed + [o.value];
        k := k + 1;
      }
      return Ok(pushed);
    }

    /**
     * One pass of `generate`'s definitions loop: the seed array (when it is a
     * non-empty array) fixes the count, `data[name]` becomes `[]` when it is
     * undefined, and the new objects are pushed onto it.
     */
    method PushObjects(name: string, fuel: nat) returns (r: Result<map<string, Json>, GenError>)
      requires definitions == Some(Ctx().ctors)
      modifies this`data, this`definitions
      ensures definitions == Some(Ctx().ctors)
      ensures r == AddDataset(old(data), name, SizeFor(options, name), NewObjects(Ctx(), name, fuel))
      ensures r.Ok? ==> data == r.value
    {
      var seedArr := SeedArray(Seeds(options), name);
      var limit := DatasetSize(options, seedArr);
      var existing := ExistingElems(data, name);
      if existing.None? {
        AddDatasetOther(data, name, limit, NewObjects(Ctx(), name, fuel));
        // an existing value that is not an array has no `push`
        if limit > 0 {
          return Err(NotAnArray(name));
        }
        return Ok(data);
      }
      AddDatasetArray(data, name, limit, NewObjects(Ctx(), name, fuel));
      data := data[name := Arr(existing.value)];
      var objs := PushLoop(name, seedArr, limit, fuel);
      assert objs == NewObjects(Ctx(), name, fuel);
      if objs.Err? {
        return Err(objs.error);
      }
      assert data == old(data)[name := Arr(existing.value + objs.value)];
      return Ok(data);
    }

    /** `generate`'s first loop: every seed dataset not named after a definition is stored as it is. */
    method PassThrough()
      requires definitions == Some(Ctx().ctors)
      modifies this`data
      ensures data == PassThroughUpTo(Seeds(options), Ctx().ctors, old(data), |Seeds(options)|)
    {
      var ctors := definitions.value;
      var seeds := Seeds(options);
      var i := 0;
      while i < |seeds|
        invariant 0 <= i <= |seeds|
        invariant data == PassThroughUpTo(seeds, ctors, old(data), i)
      {
        PassThroughStep(seeds, ctors, old(data), i);
        if Lookup(ctors, seeds[i].0).None? {
          data := data[seeds[i].0 := seeds[i].1];
        }
        i := i + 1;
      }
    }

    /** `generate`'s second loop: one dataset per definition, in the document's order. */
    method FillDatasets(fuel: nat) returns (r: Result<map<string, Json>, GenError>)
      requires definitions == Some(Ctx().ctors)
      modifies this`data, this`definitions
      ensures definitions == Some(Ctx().ctors)
      ensures r == DatasetsUpTo(Keys(Ctx().ctors), SizeFn(options), ObjectsFn(Ctx(), fuel), old(data), |Ctx().ctors|)
      ensures r.Ok? ==> data == r.value
    {
      ghost var ctx := Ctx();
      var ctors := definitions.value;
      ghost var names := Keys(ctors);
      var j := 0;
      while j < |ctors|
        invariant 0 <= j <= |ctors|
        invariant definitions == Some(ctors)
        invariant DatasetsUpTo(names, SizeFn(options), ObjectsFn(ctx, fuel), old(data), j) == Ok(data)
      {
        var name := ctors[j].0;
        assert names[j] == name;
        ghost var d := data;
        var step := PushObjects(name, fuel);
        assert SizeFn(options)(name) == SizeFor(options, name);
        assert ObjectsFn(ctx, fuel)(name) == NewObjects(ctx, name, fuel);
        if step.Err? {
          DatasetsFail(names, SizeFn(options), ObjectsFn(ctx, fuel), old(data), j, d, step.error);
          return step;
        }
        DatasetsPush(names, SizeFn(options), ObjectsFn(ctx, fuel), old(data), j, d, data);
        j := j + 1;
      }
      return Ok(data);
    }

    /**
     * `generate`: on success the data is exactly `GenerateSpec` of the data
     * before the call (see `GenerateContents` for what that holds).
     */
    method Generate(fuel: nat) returns (r: Result<map<string, Json>, GenError>)
      requires Valid()
      modifies this
      ensures Valid()
      ensures definitions == Some(Ctx().ctors)
      ensures r == GenerateSpec(Ctx(), old(data), fuel)
      ensures r.Ok? ==> data == r.value
    {
      SetDefinitions();
      PassThrough();
      r := FillDatasets(fuel);
    }
  }
}
