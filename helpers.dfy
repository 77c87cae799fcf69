/**
 * The helpers shared by the router and the mock-data generator: path
 * joining, service and operation names derived from a URL, item-format
 * resolution, pattern building and query-string parsing.
 */
module Helpers {
  import opened Wrappers
  import opened Json
  import opened Text
  import opened Schema

  // ---------------------------------------------------------------------
  // joinPaths
  // ---------------------------------------------------------------------

  /**
   * One turn of the `joinPaths` loop at index `i` on the accumulator `acc`
   * (`None` is the initial `undefined`): a falsy accumulator is replaced by
   * the fragment, otherwise the fragment loses one leading slash and is
   * appended; when the next fragment is truthy the result is made to end in
   * exactly one slash.
   */
  function JoinStep(paths: seq<string>, i: nat, acc: Option<string>): string
    requires i < |paths|
  {
    var path := if acc.None? || acc.value == "" then paths[i] else acc.value + DropLeadingSlash(paths[i]);
    if i + 1 < |paths| && paths[i + 1] != "" then DropTrailingSlash(path) + "/" else path
  }

  /** The accumulator after the first `n` turns of the loop. */
  function JoinUpTo(paths: seq<string>, n: nat): Option<string>
    requires n <= |paths|
    decreases n
  {
    if n == 0 then None else Some(JoinStep(paths, n - 1, JoinUpTo(paths, n - 1)))
  }

  /**
   * Reference definition for non-empty fragments: consecutive fragments meet
   * at one slash, the left one losing a trailing and the right one a leading
   * slash.
   */
  function Joined(paths: seq<string>): string
    requires |paths| >= 1
    decreases |paths|
  {
    if |paths| == 1 then paths[0]
    else DropTrailingSlash(Joined(paths[..|paths| - 1])) + "/" + DropLeadingSlash(paths[|paths| - 1])
  }

  lemma JoinStepJoined(paths: seq<string>, n: nat)
    requires 2 <= n <= |paths|
    requires forall k :: 0 <= k < |paths| ==> paths[k] != ""
    requires JoinUpTo(paths, n - 1) == Some(DropTrailingSlash(Joined(paths[..n - 1])) + "/")
    ensures JoinStep(paths, n - 1, JoinUpTo(paths, n - 1))
            == if n < |paths| then DropTrailingSlash(Joined(paths[..n])) + "/" else Joined(paths[..n])
  {
    var acc := DropTrailingSlash(Joined(paths[..n - 1])) + "/";
    var path := acc + DropLeadingSlash(paths[n - 1]);
    var pre := paths[..n];
    assert pre[..n - 1] == paths[..n - 1];
    assert Joined(pre) == path;
  }

  /** With non-empty fragments the loop builds `Joined`, a slash ready for the next fragment. */
  lemma {:induction false} JoinUpToJoined(paths: seq<string>, n: nat)
    requires 1 <= n <= |paths|
    requires forall k :: 0 <= k < |paths| ==> paths[k] != ""
    ensures JoinUpTo(paths, n) == Some(if n < |paths| then DropTrailingSlash(Joined(paths[..n])) + "/" else Joined(paths[..n]))
    decreases n
  {
    if n == 1 {
      assert paths[..1] == [paths[0]];
    } else {
      JoinUpToJoined(paths, n - 1);
      JoinStepJoined(paths, n);
    }
  }

  /**
   * `joinPaths`: `undefined` (None) for no fragments, the fragment itself
   * for one, and for non-empty fragments the `Joined` reference.
   */
  method JoinPaths(paths: seq<string>) returns (r: Option<string>)
    ensures r == JoinUpTo(paths, |paths|)
    ensures r.None? <==> |paths| == 0
    ensures |paths| == 1 ==> r == Some(paths[0])
    ensures |paths| >= 1 && (forall k :: 0 <= k < |paths| ==> paths[k] != "") ==> r == Some(Joined(paths))
  {
    var path: Option<string> := None;
    var i := 0;
    while i < |paths|
      invariant 0 <= i <= |paths|
      invariant path == JoinUpTo(paths, i)
    {
      var p := if path.None? || path.value == "" then paths[i] else path.value + DropLeadingSlash(paths[i]);
      if i + 1 < |paths| && paths[i + 1] != "" {
        p := DropTrailingSlash(p) + "/";
      }
      path := Some(p);
      i := i + 1;
    }
    r := path;
    if |paths| >= 1 && forall k :: 0 <= k < |paths| ==> paths[k] != "" {
      JoinUpToJoined(paths, |paths|);
      assert paths[..|paths|] == paths;
    }
  }

  /**
   * Two non-empty fragments meet at exactly one slash when neither brings
   * two slashes to the boundary: the documented examples
   * `["path1","path2"]` and `["path1/","/path2"]` are both `path1/path2`.
   */
  lemma JoinTwoAtOneSlash(a: string, b: string)
    requires a != "" && b != ""
    requires !(|a| >= 2 && a[|a| - 2..] == "//") && !(|b| >= 2 && b[..2] == "//")
    ensures JoinUpTo([a, b], 2) == Some(DropTrailingSlash(a) + "/" + DropLeadingSlash(b))
    ensures DropTrailingSlash(a) == "" || DropTrailingSlash(a)[|DropTrailingSlash(a)| - 1] != '/'
    ensures DropLeadingSlash(b) == "" || DropLeadingSlash(b)[0] != '/'
  {
    JoinUpToJoined([a, b], 2);
    assert [a, b][..2] == [a, b];
    assert [a, b][..1] == [a];
    if |a| >= 2 && a[|a| - 1] == '/' {
      assert a[|a| - 2..] == [a[|a| - 2], a[|a| - 1]];
    }
    if |b| >= 2 && b[0] == '/' {
      assert b[..2] == [b[0], b[1]];
    }
  }

  /** The documented `joinPath(["path1","path2"])` gives `"path1/path2"`. */
  lemma JoinExamplePlain(paths: seq<string>)
    requires paths == ["path1", "path2"]
    ensures JoinUpTo(paths, 2) == Some("path1/path2")
  {
    JoinTwoAtOneSlash(paths[0], paths[1]);
    assert DropTrailingSlash("path1") == "path1" && DropLeadingSlash("path2") == "path2";
    JoinedPath1Path2("path1", "path2");
  }

  /** The documented `joinPath(["path1/","/path2"])` gives `"path1/path2"`. */
  lemma JoinExampleSlashes(paths: seq<string>)
    requires paths == ["path1/", "/path2"]
    ensures JoinUpTo(paths, 2) == Some("path1/path2")
  {
    SlashedFragments(paths[0], paths[1]);
    JoinTwoAtOneSlash(paths[0], paths[1]);
    JoinedPath1Path2("path1", "path2");
  }

  /** Proof step of `JoinExampleSlashes`: the facts about the two slashed literals. */
  lemma SlashedFragments(a: string, b: string)
    requires a == "path1/" && b == "/path2"
    ensures a[|a| - 2..] != "//" && b[..2] != "//"
    ensures DropTrailingSlash(a) == "path1" && DropLeadingSlash(b) == "path2"
  {
    assert a[|a| - 2..] == "1/" && b[..2] == "/p";
    assert a[..5] == "path1" && b[1..] == "path2";
  }

  /** Proof step of the `JoinExample` lemmas: the joined literal. */
  lemma JoinedPath1Path2(a: string, b: string)
    requires a == "path1" && b == "path2"
    ensures a + "/" + b == "path1/path2"
  {
  }

  // ---------------------------------------------------------------------
  // String utilities
  // ---------------------------------------------------------------------

  /** `String.prototype.toUpperCaseFirst`: only the first character is upper-cased. */
  function ToUpperCaseFirst(s: string): (r: string)
    ensures |r| == |s|
    ensures |s| > 0 ==> r[0] == Upper(s[0]) && r[1..] == s[1..]
  {
    if |s| == 0 then "" else [Upper(s[0])] + s[1..]
  }

  /**
   * `getServiceNameFromUrl`: after dropping one leading slash, the text up
   * to the first slash (or the end), first character upper-cased.
   */
  function GetServiceNameFromUrl(url: string): (r: string)
    ensures var u := DropLeadingSlash(url);
      |r| <= |u| && r == ToUpperCaseFirst(u[..|r|]) && '/' !in u[..|r|] && (|r| == |u| || u[|r|] == '/')
  {
    ToUpperCaseFirst(Split(DropLeadingSlash(url), '/')[0])
  }

  /** The service name is the capitalised text before the first slash at `k`. */
  lemma ServiceNameAt(url: string, k: nat)
    requires var u := DropLeadingSlash(url); k <= |u| && (forall j :: 0 <= j < k ==> u[j] != '/') && (k == |u| || u[k] == '/')
    ensures GetServiceNameFromUrl(url) == ToUpperCaseFirst(DropLeadingSlash(url)[..k])
  {
  }

  /** The documented url `/products` gives the service name `Products`. */
  lemma ServiceNameExample()
    ensures GetServiceNameFromUrl("/products") == "Products"
  {
    assert ToUpperCaseFirst("products") == "Products";
    assert DropLeadingSlash("/products") == "products";
    ServiceNameAt("/products", 8);
  }

  /** Upper-cased concatenation of the pieces, left to right. */
  function CapitalisedConcat(parts: seq<string>): string
    decreases |parts|
  {
    if |parts| == 0 then "" else CapitalisedConcat(parts[..|parts| - 1]) + ToUpperCaseFirst(parts[|parts| - 1])
  }

  /** The pieces `getOperationIdFromUrl` works on (one leading slash, the first `{` and the first `}` removed). */
  function OperationIdSegments(url: string): (r: seq<string>)
    ensures |r| >= 1 && forall k :: 0 <= k < |r| ==> '/' !in r[k]
  {
    Split(RemoveFirst(RemoveFirst(DropLeadingSlash(url), "{"), "}"), '/')
  }

  /** Extending the range of pieces by one appends that piece, upper-cased. */
  lemma CapitalisedConcatStep(parts: seq<string>, i: nat)
    requires i < |parts|
    ensures CapitalisedConcat(parts[..i + 1]) == CapitalisedConcat(parts[..i]) + ToUpperCaseFirst(parts[i])
  {
    assert parts[..i + 1][..i] == parts[..i];
  }

  /** Upper-casing the first character introduces no slash. */
  lemma UpperFirstNoSlash(s: string)
    requires '/' !in s
    ensures '/' !in ToUpperCaseFirst(s)
  {
    var cap := ToUpperCaseFirst(s);
    forall k | 0 <= k < |cap| ensures cap[k] != '/' {
      if k == 0 { assert s[0] in s; } else { assert cap[k] == s[k] && s[k] in s; }
    }
  }

  lemma {:induction false} CapitalisedConcatNoSlash(parts: seq<string>)
    requires forall k :: 0 <= k < |parts| ==> '/' !in parts[k]
    ensures '/' !in CapitalisedConcat(parts)
    decreases |parts|
  {
    if |parts| > 0 {
      CapitalisedConcatNoSlash(parts[..|parts| - 1]);
      UpperFirstNoSlash(parts[|parts| - 1]);
    }
  }

  /**
   * The generated part of an operation id: the single piece upper-cased,
   * or the remaining pieces upper-cased and concatenated once the first
   * (the service name) is dropped. It never contains '/'.
   */
  function OperationIdSuffix(url: string): (r: string)
    ensures '/' !in r
  {
    var e := OperationIdSegments(url);
    if |e| == 1 then
      UpperFirstNoSlash(e[0]);
      ToUpperCaseFirst(e[0])
    else
      CapitalisedConcatNoSlash(e[1..]);
      CapitalisedConcat(e[1..])
  }

  /** `getOperationIdFromUrl`: the method name followed by the generated part. */
  method GetOperationIdFromUrl(httpMethod: string, url: string) returns (r: string)
    ensures r == httpMethod + OperationIdSuffix(url)
  {
    var elements := OperationIdSegments(url);
    var id := "";
    if |elements| == 1 {
      id := ToUpperCaseFirst(elements[0]);
    } else {
      var rest := elements[1..];
      var i := 0;
      while i < |rest|
        invariant i <= |rest|
        invariant id == CapitalisedConcat(rest[..i])
      {
        CapitalisedConcatStep(rest, i);
        id := id + ToUpperCaseFirst(rest[i]);
        i := i + 1;
      }
      assert rest[..i] == rest;
    }
    r := httpMethod + id;
  }

  /** The operation id starts with the method name and its generated part has no '/'. */
  lemma OperationIdShape(httpMethod: string, url: string, r: string)
    requires r == httpMethod + OperationIdSuffix(url)
    ensures |r| >= |httpMethod| && r[..|httpMethod|] == httpMethod
    ensures '/' !in r[|httpMethod|..]
  {
    assert r[|httpMethod|..] == OperationIdSuffix(url);
  }

  /** No character that `getOperationIdFromUrl` treats specially. */
  predicate PlainSegment(s: string) {
    '/' !in s && '{' !in s && '}' !in s
  }

  /** A plain segment splits into itself. */
  lemma SplitPlain(a: string)
    requires '/' !in a
    ensures Split(a, '/') == [a]
  {
    SplitAfterPlain(a, "", '/');
    assert a + "" == a;
  }

  /** A url of one plain segment gives that segment, upper-cased. */
  lemma OperationIdSuffixOne(a: string)
    requires PlainSegment(a)
    ensures OperationIdSuffix("/" + a) == ToUpperCaseFirst(a)
  {
    DropLeadingSlashOf(a);
    RemoveFirstAbsent(a, '{');
    RemoveFirstAbsent(a, '}');
    SplitPlain(a);
  }

  /** Dropping the leading slash of `/u` gives `u`. */
  lemma DropLeadingSlashOf(u: string)
    ensures DropLeadingSlash("/" + u) == u
  {
    assert ("/" + u)[1..] == u;
  }

  /** Removing the first `{` and the first `}` of `a/{b}/d` leaves `a/b/d`. */
  lemma BracesRemoved(a: string, b: string, d: string)
    requires PlainSegment(a) && PlainSegment(b)
    ensures RemoveFirst(RemoveFirst(a + "/{" + b + "}/" + d, "{"), "}") == a + "/" + b + "/" + d
  {
    OpenBraceRemoved(a, b, d);
    CloseBraceRemoved(a, b, d);
  }

  lemma OpenBraceRemoved(a: string, b: string, d: string)
    requires PlainSegment(a)
    ensures RemoveFirst(a + "/{" + b + "}/" + d, "{") == a + "/" + b + "}/" + d
  {
    var x := a + "/";
    var tail := b + "}/" + d;
    assert '{' !in x by { assert x == a + ['/']; }
    assert a + "/{" + b + "}/" + d == x + ['{'] + tail;
    RemoveFirstChar(x, '{', tail);
    assert x + tail == a + "/" + b + "}/" + d;
  }

  lemma CloseBraceRemoved(a: string, b: string, d: string)
    requires PlainSegment(a) && PlainSegment(b)
    ensures RemoveFirst(a + "/" + b + "}/" + d, "}") == a + "/" + b + "/" + d
  {
    var x := a + "/" + b;
    var tail := "/" + d;
    assert '}' !in x by { assert x == a + ['/'] + b; }
    assert a + "/" + b + "}/" + d == x + ['}'] + tail;
    RemoveFirstChar(x, '}', tail);
    assert x + tail == a + "/" + b + "/" + d;
  }

  /** The pieces of `a/b/d` for plain segments are the three segments. */
  lemma SplitThree(a: string, b: string, d: string)
    requires '/' !in a && '/' !in b && '/' !in d
    ensures Split(a + "/" + b + "/" + d, '/') == [a, b, d]
  {
    assert a + "/" + b + "/" + d == a + ['/'] + b + ['/'] + d;
    SplitTwoLines(a, b, d, '/');
    SplitPlain(d);
  }

  /** Two pieces, each upper-cased, concatenated. */
  lemma CapitalisedConcatTwo(b: string, d: string)
    ensures CapitalisedConcat([b, d]) == ToUpperCaseFirst(b) + ToUpperCaseFirst(d)
  {
    assert [b, d][..1] == [b];
    assert [b][..0] == [];
    assert CapitalisedConcat([b]) == ToUpperCaseFirst(b);
  }

  /** A url `/a/{b}/d` of plain segments gives `B` and `D` upper-cased and concatenated. */
  lemma OperationIdSuffixTemplate(a: string, b: string, d: string)
    requires PlainSegment(a) && PlainSegment(b) && PlainSegment(d)
    ensures OperationIdSuffix("/" + a + "/{" + b + "}/" + d) == ToUpperCaseFirst(b) + ToUpperCaseFirst(d)
  {
    var u := a + "/{" + b + "}/" + d;
    assert "/" + a + "/{" + b + "}/" + d == "/" + u;
    DropLeadingSlashOf(u);
    BracesRemoved(a, b, d);
    SplitThree(a, b, d);
    assert [a, b, d][1..] == [b, d];
    CapitalisedConcatTwo(b, d);
  }

  // The documented examples. Each fact about string literals sits in a
  // lemma of its own, with the url and the id passed in as parameters.

  /** Proof step of `OperationIdExampleSingle`: the shape of `/products`. */
  lemma ProductsUrl(url: string)
    requires url == "/products"
    ensures url == "/" + "products" && PlainSegment("products")
  {
  }

  /** Proof step of `OperationIdExampleSingle`: the capitalised segment. */
  lemma ProductsUpper()
    ensures ToUpperCaseFirst("products") == "Products"
  {
  }

  /** Proof step of `OperationIdExampleSingle`: the concatenated id. */
  lemma PostProductsId(id: string, suffix: string)
    requires suffix == "Products" && id == "post" + suffix
    ensures id == "postProducts"
  {
  }

  /** The documented `post,/products` example gives `postProducts`. */
  lemma OperationIdExampleSingle(url: string, id: string)
    requires url == "/products" && id == "post" + OperationIdSuffix(url)
    ensures OperationIdSuffix(url) == "Products"
    ensures id == "postProducts"
  {
    ProductsUrl(url);
    OperationIdSuffixOne("products");
    ProductsUpper();
    assert OperationIdSuffix(url) == "Products";
    PostProductsId(id, OperationIdSuffix(url));
  }

  /** Proof step of `OperationIdExampleTemplate`: the shape of `/products/{id}/images`. */
  lemma ImagesUrl(url: string)
    requires url == "/products/{productId}/images"
    ensures url == "/" + "products" + "/{" + "productId" + "}/" + "images"
  {
  }

  /** Proof step of `OperationIdExampleTemplate`: its segments are plain. */
  lemma ImagesSegmentsPlain()
    ensures PlainSegment("products") && PlainSegment("productId") && PlainSegment("images")
  {
  }

  /** Proof step of `OperationIdExampleTemplate`: the capitalised segments. */
  lemma ImagesUpper()
    ensures ToUpperCaseFirst("productId") + ToUpperCaseFirst("images") == "ProductIdImages"
  {
    assert ToUpperCaseFirst("productId") == "ProductId";
    assert ToUpperCaseFirst("images") == "Images";
  }

  /** Proof step of `OperationIdExampleTemplate`: the concatenated id. */
  lemma GetImagesId(id: string, suffix: string)
    requires suffix == "ProductIdImages" && id == "get" + suffix
    ensures id == "getProductIdImages"
  {
  }

  /** The documented `get,/products/{productId}/images` example gives `getProductIdImages`. */
  lemma OperationIdExampleTemplate(url: string, id: string)
    requires url == "/products/{productId}/images" && id == "get" + OperationIdSuffix(url)
    ensures OperationIdSuffix(url) == "ProductIdImages"
    ensures id == "getProductIdImages"
  {
    ImagesUrl(url);
    ImagesSegmentsPlain();
    OperationIdSuffixTemplate("products", "productId", "images");
    ImagesUpper();
    assert OperationIdSuffix(url) == "ProductIdImages";
    GetImagesId(id, OperationIdSuffix(url));
  }

  // ---------------------------------------------------------------------
  // Item formats and patterns
  // ---------------------------------------------------------------------

  /** A `schema` wrapper is unwrapped, one level. */
  function Unwrapped(item: Node): Node {
    if item.schema.Some? then item.schema.value else item
  }

  /** A defined, non-empty `$ref`. */
  predicate HasRef(item: Node) {
    item.ref.Some? && item.ref.value != ""
  }

  /**
   * `getItemFormat`: a node with a `$ref` resolves to a node whose only
   * field is `type` (the reference without `#/definitions/`); any other
   * node resolves to itself, after unwrapping one `schema` level.
   */
  function GetItemFormat(item: Node): Node {
    var node := Unwrapped(item);
    if HasRef(node) then TypeOnly(RemoveFirst(node.ref.value, "#/definitions/")) else node
  }

  /** A reference `#/definitions/T` resolves to type `T` and nothing else. */
  lemma ItemFormatOfReference(item: Node, name: string)
    requires Unwrapped(item).ref == Some("#/definitions/" + name)
    ensures GetItemFormat(item) == TypeOnly(name)
  {
    var ref := "#/definitions/" + name;
    RemoveFirstPrefix(ref, "#/definitions/");
    assert ref[|"#/definitions/"|..] == name;
  }

  /** A node with neither a `schema` wrapper nor a `$ref` resolves to itself, every field kept. */
  lemma ItemFormatPlain(item: Node)
    requires item.schema.None? && !HasRef(item)
    ensures GetItemFormat(item) == item
  {
  }

  /** A `schema` wrapper resolves as its content does (one level is unwrapped). */
  lemma ItemFormatOfSchema(item: Node)
    requires item.schema.Some? && item.schema.value.schema.None?
    ensures GetItemFormat(item) == GetItemFormat(item.schema.value)
  {
  }

  /** Resolving an already resolved node (no nested `schema`) changes nothing. */
  lemma ItemFormatIdempotent(item: Node)
    requires Unwrapped(item).schema.None?
    ensures GetItemFormat(GetItemFormat(item)) == GetItemFormat(item)
  {
  }

  /** `required === true || required === 'true'`. */
  predicate IsRequired(r: Required) {
    r == Flag(true) || r == Text("true")
  }

  /** A truthy explicit `pattern`. */
  predicate HasPattern(fmt: Node) {
    fmt.pattern.Some? && fmt.pattern.value != ""
  }

  predicate IsScalarType(t: Option<string>) {
    t == Some("string") || t == Some("number") || t == Some("integer") || t == Some("boolean")
  }

  /** Effective lower bound: `minLength`, else 1 when required, else `defaultMin`. */
  function MinBound(fmt: Node, options: Options): int {
    if fmt.minLength.Some? then fmt.minLength.value
    else if IsRequired(fmt.required) then 1
    else options.defaultMin
  }

  /** Effective upper bound: `maxLength`, else `defaultMax`. */
  function MaxBound(fmt: Node, options: Options): int {
    if fmt.maxLength.Some? then fmt.maxLength.value else options.defaultMax
  }

  const DigitClass: string := "[0-9]"
  const WordClass: string := "[a-zA-Z0-9-]"

  /** The repetition suffix `{min,max}`. */
  function Repetition(min: int, max: int): string {
    "{" + IntToString(min) + "," + IntToString(max) + "}"
  }

  /**
   * `getItemFormatPattern`: an explicit truthy pattern wins; otherwise the
   * type's template with the effective bounds; for any other type the
   * node's own (falsy or absent) pattern.  A usable pattern comes out
   * exactly when there is an explicit one or the type is a scalar.
   */
  function GetItemFormatPattern(fmt: Node, options: Options): (r: Option<string>)
    ensures HasPattern(fmt) ==> r == fmt.pattern
    ensures !HasPattern(fmt) && fmt.typ == Some("boolean") ==> r == Some("true|false")
    ensures !HasPattern(fmt) && (fmt.typ == Some("number") || fmt.typ == Some("integer")) ==>
              r == Some(DigitClass + Repetition(MinBound(fmt, options), MaxBound(fmt, options)))
    ensures !HasPattern(fmt) && fmt.typ == Some("string") ==>
              r == Some(WordClass + Repetition(MinBound(fmt, options), MaxBound(fmt, options)))
    ensures (r.Some? && r.value != "") <==> HasPattern(fmt) || IsScalarType(fmt.typ)
  {
    if HasPattern(fmt) then fmt.pattern
    else
      var range := Repetition(MinBound(fmt, options), MaxBound(fmt, options));
      match fmt.typ
      case Some("boolean") => Some("true|false")
      case Some("number") => Some(DigitClass + range)
      case Some("integer") => Some(DigitClass + range)
      case Some("string") => Some(WordClass + range)
      case _ => fmt.pattern
  }

  /**
   * Reads the bounds back out of a pattern `<class>{min,max}` whose class
   * holds no brace: the inverse of the template.
   */
  function ReadRepetition(pattern: string): Option<(int, int)> {
    var outer := Split(pattern, '{');
    if |outer| != 2 || outer[1] == "" || outer[1][|outer[1]| - 1] != '}' then None
    else
      var bounds := Split(outer[1][..|outer[1]| - 1], ',');
      if |bounds| != 2 then None
      else
        match (ParseInt(bounds[0]), ParseInt(bounds[1]))
        case (Some(lo), Some(hi)) => Some((lo, hi))
        case _ => None
  }

  lemma {:induction false} NoPunctuationInInt(n: int)
    ensures '{' !in IntToString(n) && '}' !in IntToString(n) && ',' !in IntToString(n)
  {
    IntToStringChars(n);
  }

  lemma {:induction false} RepetitionReadBack(cls: string, min: int, max: int)
    requires '{' !in cls
    ensures ReadRepetition(cls + Repetition(min, max)) == Some((min, max))
  {
    var a, b := IntToString(min), IntToString(max);
    NoPunctuationInInt(min);
    NoPunctuationInInt(max);
    var inner := a + "," + b;
    var tail := inner + "}";
    assert '{' !in tail by {
      forall k | 0 <= k < |tail| ensures tail[k] != '{' {
        if k < |a| { assert tail[k] == a[k] && a[k] in a; }
        else if k == |a| { }
        else if k < |a| + 1 + |b| { assert tail[k] == b[k - |a| - 1] && b[k - |a| - 1] in b; }
      }
    }
    assert cls + Repetition(min, max) == Join([cls, tail], "{");
    SplitJoin([cls, tail], '{');
    assert tail[..|tail| - 1] == inner;
    assert inner == Join([a, b], ",");
    SplitJoin([a, b], ',');
    IntToStringRoundTrip(min);
    IntToStringRoundTrip(max);
  }

  /**
   * The bounds written into a number, integer or string pattern read back
   * as `(min, max)`, where `min` is `minLength` if set, else 1 for a
   * required node, else `defaultMin`, and `max` is `maxLength` if set, else
   * `defaultMax`.
   */
  lemma PatternBounds(fmt: Node, options: Options)
    requires !HasPattern(fmt)
    requires fmt.typ == Some("number") || fmt.typ == Some("integer") || fmt.typ == Some("string")
    ensures GetItemFormatPattern(fmt, options).Some?
    ensures var bounds := ReadRepetition(GetItemFormatPattern(fmt, options).value);
      && bounds.Some?
      && (fmt.minLength.Some? ==> bounds.value.0 == fmt.minLength.value)
      && (fmt.minLength.None? && IsRequired(fmt.required) ==> bounds.value.0 == 1)
      && (fmt.minLength.None? && !IsRequired(fmt.required) ==> bounds.value.0 == options.defaultMin)
      && (fmt.maxLength.Some? ==> bounds.value.1 == fmt.maxLength.value)
      && (fmt.maxLength.None? ==> bounds.value.1 == options.defaultMax)
  {
    var cls := if fmt.typ == Some("string") then WordClass else DigitClass;
    RepetitionReadBack(cls, MinBound(fmt, options), MaxBound(fmt, options));
  }

  // ---------------------------------------------------------------------
  // parseQuery
  // ---------------------------------------------------------------------

  /** The `&`-pieces of a query; an absent or empty query has none. */
  function QueryPieces(query: Option<string>): seq<string> {
    if query.None? || query.value == "" then [] else Split(query.value, '&')
  }

  /** `decodeURIComponent(b[0])`. */
  function PieceKey(piece: string, decode: string -> string): string {
    decode(Split(piece, '=')[0])
  }

  /** `decodeURIComponent(b[1])`; a piece without `=` decodes the string "undefined". */
  function PieceValue(piece: string, decode: string -> string): string {
    var b := Split(piece, '=');
    decode(if |b| > 1 then b[1] else "undefined")
  }

  /** The dictionary after assigning the pieces in order. */
  function QueryMap(pieces: seq<string>, decode: string -> string): map<string, string>
    decreases |pieces|
  {
    if |pieces| == 0 then map[]
    else
      var last := pieces[|pieces| - 1];
      QueryMap(pieces[..|pieces| - 1], decode)[PieceKey(last, decode) := PieceValue(last, decode)]
  }

  /** Exactly the keys of the pieces are bound. */
  lemma {:induction false} QueryMapKeys(pieces: seq<string>, decode: string -> string, k: string)
    ensures k in QueryMap(pieces, decode) <==> exists i :: 0 <= i < |pieces| && PieceKey(pieces[i], decode) == k
    decreases |pieces|
  {
    if |pieces| > 0 {
      var init := pieces[..|pieces| - 1];
      QueryMapKeys(init, decode, k);
      if k in QueryMap(pieces, decode) && k != PieceKey(pieces[|pieces| - 1], decode) {
        var i :| 0 <= i < |init| && PieceKey(init[i], decode) == k;
        assert pieces[i] == init[i];
      }
      if exists i :: 0 <= i < |pieces| && PieceKey(pieces[i], decode) == k {
        var i :| 0 <= i < |pieces| && PieceKey(pieces[i], decode) == k;
        if i < |init| { assert init[i] == pieces[i]; }
      }
    }
  }

  /** A key is bound to the value of its LAST piece. */
  lemma {:induction false} QueryMapLastWins(pieces: seq<string>, decode: string -> string, i: nat)
    requires i < |pieces|
    requires forall j :: i < j < |pieces| ==> PieceKey(pieces[j], decode) != PieceKey(pieces[i], decode)
    ensures PieceKey(pieces[i], decode) in QueryMap(pieces, decode)
    ensures QueryMap(pieces, decode)[PieceKey(pieces[i], decode)] == PieceValue(pieces[i], decode)
    decreases |pieces|
  {
    if i < |pieces| - 1 {
      var init := pieces[..|pieces| - 1];
      assert init[i] == pieces[i];
      forall j | i < j < |init| ensures PieceKey(init[j], decode) != PieceKey(init[i], decode) {
        assert init[j] == pieces[j];
      }
      QueryMapLastWins(init, decode, i);
    }
  }

  /**
   * `parseQuery` (identical in lib/helpers.js and lib/router.js): an absent
   * or empty query gives the empty dictionary; otherwise every piece's key
   * is bound, the last duplicate winning.
   */
  method ParseQuery(query: Option<string>, decode: string -> string) returns (parsed: map<string, string>)
    ensures parsed == QueryMap(QueryPieces(query), decode)
    ensures query.None? || query == Some("") ==> parsed == map[]
    ensures var pieces := QueryPieces(query);
      forall k :: k in parsed <==> exists i :: 0 <= i < |pieces| && PieceKey(pieces[i], decode) == k
    ensures var pieces := QueryPieces(query);
      forall i :: 0 <= i < |pieces| && (forall j :: i < j < |pieces| ==> PieceKey(pieces[j], decode) != PieceKey(pieces[i], decode)) ==>
        parsed[PieceKey(pieces[i], decode)] == PieceValue(pieces[i], decode)
  {
    parsed := map[];
    if query.Some? && query.value != "" {
      var a := Split(query.value, '&');
      var i := 0;
      while i < |a|
        invariant 0 <= i <= |a|
        invariant parsed == QueryMap(a[..i], decode)
      {
        assert a[..i + 1][..i] == a[..i];
        var b := Split(a[i], '=');
        var key := decode(b[0]);
        parsed := parsed[key := decode(if |b| > 1 then b[1] else "undefined")];
        i := i + 1;
      }
      assert a[..i] == a;
    }
    var pieces := QueryPieces(query);
    forall k ensures k in parsed <==> exists i :: 0 <= i < |pieces| && PieceKey(pieces[i], decode) == k {
      QueryMapKeys(pieces, decode, k);
    }
    forall i | 0 <= i < |pieces| && (forall j :: i < j < |pieces| ==> PieceKey(pieces[j], decode) != PieceKey(pieces[i], decode))
      ensures parsed[PieceKey(pieces[i], decode)] == PieceValue(pieces[i], decode)
    {
      QueryMapLastWins(pieces, decode, i);
    }
  }
}
