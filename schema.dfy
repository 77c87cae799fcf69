/**
 * The parts of a pre-parsed Swagger 2.0 document that the core reads, and
 * the merged options object.
 */
module Schema {
  import opened Wrappers
  import opened Json

  /**
   * The `required` field of a node as the pattern builder tests it
   * (`=== true || === 'true'`).  `Unset` stands for a missing field and for
   * any value that is neither a boolean nor a string (a Schema Object's
   * `required` array, say).
   */
  datatype Required = Unset | Flag(b: bool) | Text(s: string)

  /**
   * An item node: a Parameter, Schema, Reference or Items Object.  Absent
   * fields are `None`; `ref` is the `$ref` field, `typ` the `type` field.
   */
  datatype Node = Node(
    name: Option<string>,
    typ: Option<string>,
    pattern: Option<string>,
    minLength: Option<int>,
    maxLength: Option<int>,
    required: Required,
    items: Option<Node>,
    schema: Option<Node>,
    ref: Option<string>)

  /** A node that carries nothing but a `type`. */
  function TypeOnly(t: string): Node {
    Node(None, Some(t), None, None, None, Unset, None, None, None)
  }

  /**
   * An entry of `definitions`: its `properties` in JavaScript's key
   * enumeration order, the order `_.forEach` visits them (integer-like names
   * first, ascending, then the others in document order; a missing
   * `properties` is the empty list) and its `required` field when that is an
   * array (`None` for anything else).
   */
  datatype Definition = Definition(properties: seq<(string, Node)>, required: Option<seq<string>>)

  /** An Operation Object; `parameters` is `None` when the field is absent. */
  datatype Operation = Operation(parameters: Option<seq<Node>>)

  /**
   * The document: `basePath`, `paths` (each path with its method keys) and
   * `definitions` (a missing field is the empty list), every list in
   * JavaScript's key enumeration order: integer-like keys first, ascending,
   * then the others in document order.  Paths start with `/` and methods are
   * words, so for those two lists this is document order.
   */
  datatype Document = Document(
    basePath: Option<string>,
    paths: seq<(string, seq<(string, Operation)>)>,
    definitions: seq<(string, Definition)>)

  /** The options object after the defaults have been merged in. */
  datatype Options = Options(
    ignoreHost: bool,
    defaultLimit: int,
    defaultMin: int,
    defaultMax: int,
    mockData: Option<seq<(string, Json)>>)
}
