/**
 * Path template compilation and route registration: every get/post/put/
 * delete operation of the document is registered, under the key
 * `method + '/' + compiledPath`, in a route table shared by all routers;
 * `Match` hands the key of a request to the (foreign) matcher and merges
 * the query string over the captured parameters.
 */
module Router {
  import opened Wrappers
  import opened Text
  import opened Schema
  import opened Helpers

  // ---------------------------------------------------------------------
  // correctPath
  // ---------------------------------------------------------------------

  /** A segment that starts with `{` and ends with `}`. */
  predicate IsTemplateSegment(seg: string) {
    |seg| >= 1 && seg[0] == '{' && seg[|seg| - 1] == '}'
  }

  /** `segment.slice(1, -1)`. */
  function TemplateName(seg: string): string
    requires IsTemplateSegment(seg)
  {
    if |seg| >= 2 then seg[1..|seg| - 1] else ""
  }

  /** `getParameterByName`: the LAST parameter called `name`, if any. */
  function GetParameterByName(params: seq<Node>, name: string): (r: Option<Node>)
    ensures r.None? <==> forall i :: 0 <= i < |params| ==> params[i].name != Some(name)
    ensures r.Some? ==> (r.value.name == Some(name) &&
                         exists i :: 0 <= i < |params| && params[i] == r.value &&
                                     forall j :: i < j < |params| ==> params[j].name != Some(name))
    decreases |params|
  {
    if |params| == 0 then None
    else if params[|params| - 1].name == Some(name) then Some(params[|params| - 1])
    else GetParameterByName(params[..|params| - 1], name)
  }

  /** A parameter whose item format yields a truthy pattern. */
  predicate HasDerivablePattern(p: Node, options: Options) {
    var fmt := GetItemFormat(p);
    HasPattern(fmt) || IsScalarType(fmt.typ)
  }

  /**
   * The rewrite of one segment: a template segment whose name belongs to a
   * parameter with a derivable pattern becomes `:name(pattern)`; every other
   * segment, braces included, is kept as it is.
   */
  function CompileSegment(seg: string, params: seq<Node>, options: Options): (r: string)
    ensures (r != seg) <==> IsTemplateSegment(seg) && GetParameterByName(params, TemplateName(seg)).Some?
                            && HasDerivablePattern(GetParameterByName(params, TemplateName(seg)).value, options)
    ensures r != seg ==>
              (r == ":" + TemplateName(seg) + "(" +
                    GetItemFormatPattern(GetItemFormat(GetParameterByName(params, TemplateName(seg)).value), options).value + ")")
  {
    if IsTemplateSegment(seg) then
      match GetParameterByName(params, TemplateName(seg))
      case None => seg
      case Some(p) =>
        var pattern := GetItemFormatPattern(GetItemFormat(p), options);
        if pattern.Some? && pattern.value != "" then
          var capture := ":" + p.name.value + "(" + pattern.value + ")";
          assert capture[0] != seg[0];
          capture
        else seg
    else seg
  }

  function CompileSegments(segments: seq<string>, params: seq<Node>, options: Options): (r: seq<string>)
    ensures |r| == |segments|
    ensures forall k :: 0 <= k < |segments| ==> r[k] == CompileSegment(segments[k], params, options)
  {
    seq(|segments|, k requires 0 <= k < |segments| => CompileSegment(segments[k], params, options))
  }

  /**
   * `correctPath` (the `host` argument does nothing and is left out):
   * without `parameters` the path is returned as it is; otherwise the
   * leading slash is kept and the remaining `/`-segments are rewritten one
   * by one.  The regex `/^\/?|\/?$/` is not global and its first
   * alternative always matches at index 0, so only a leading slash is
   * removed before splitting.
   */
  function CorrectPath(path: string, op: Operation, options: Options): (r: string)
    ensures op.parameters.None? ==> r == path
    ensures op.parameters.Some? ==>
              r == (if |path| > 0 && path[0] == '/' then "/" else "")
                   + Join(CompileSegments(Split(DropLeadingSlash(path), '/'), op.parameters.value, options), "/")
  {
    if op.parameters.None? then path
    else
      var first := if |path| > 0 && path[0] == '/' then "/" else "";
      var segments := Split(DropLeadingSlash(path), '/');
      first + Join(CompileSegments(segments, op.parameters.value, options), "/")
  }

  /** A path with no template segment compiles to itself. */
  lemma CorrectPathNoTemplate(path: string, op: Operation, options: Options)
    requires forall k :: 0 <= k < |Split(DropLeadingSlash(path), '/')| ==> !IsTemplateSegment(Split(DropLeadingSlash(path), '/')[k])
    ensures CorrectPath(path, op, options) == path
  {
    if op.parameters.Some? {
      var segments := Split(DropLeadingSlash(path), '/');
      assert CompileSegments(segments, op.parameters.value, options) == segments;
      JoinSplit(DropLeadingSlash(path), '/');
    }
  }

  lemma {:induction false} JoinHeadChar(parts: seq<string>, sep: string)
    requires |parts| >= 1 && parts[0] != ""
    ensures Join(parts, sep) != "" && Join(parts, sep)[0] == parts[0][0]
  {
  }

  lemma TemplateHasNoSlash(cls: string, min: int, max: int)
    requires '/' !in cls
    ensures '/' !in cls + Repetition(min, max)
  {
    IntToStringChars(min);
    IntToStringChars(max);
  }

  /** The pattern a parameter contributes contains no slash (when its explicit one has none). */
  lemma DerivedPatternNoSlash(p: Node, options: Options)
    requires GetItemFormat(p).pattern.Some? ==> '/' !in GetItemFormat(p).pattern.value
    requires GetItemFormatPattern(GetItemFormat(p), options).Some?
    ensures '/' !in GetItemFormatPattern(GetItemFormat(p), options).value
  {
    var fmt := GetItemFormat(p);
    if !HasPattern(fmt) {
      var lo, hi := MinBound(fmt, options), MaxBound(fmt, options);
      TemplateHasNoSlash(DigitClass, lo, hi);
      TemplateHasNoSlash(WordClass, lo, hi);
    }
  }

  /** A segment without a slash compiles to one without a slash. */
  lemma CompiledSegmentNoSlash(seg: string, params: seq<Node>, options: Options)
    requires '/' !in seg
    requires forall i :: 0 <= i < |params| && GetItemFormat(params[i]).pattern.Some? ==>
               '/' !in GetItemFormat(params[i]).pattern.value
    ensures '/' !in CompileSegment(seg, params, options)
  {
    if CompileSegment(seg, params, options) != seg {
      var name := TemplateName(seg);
      var p := GetParameterByName(params, name).value;
      var i :| 0 <= i < |params| && params[i] == p;
      DerivedPatternNoSlash(p, options);
      var pattern := GetItemFormatPattern(GetItemFormat(p), options).value;
      assert '/' !in name by {
        forall j | 0 <= j < |name| ensures name[j] != '/' { assert name[j] == seg[j + 1] && seg[j + 1] in seg; }
      }
      CaptureNoSlash(name, pattern);
    }
  }

  /** `:name(pattern)` has a slash only where its name or pattern has one. */
  lemma CaptureNoSlash(name: string, pattern: string)
    requires '/' !in name && '/' !in pattern
    ensures '/' !in ":" + name + "(" + pattern + ")"
  {
  }

  /**
   * `correctPath` keeps a leading slash (and adds none) and, as long as no
   * parameter's explicit pattern contains a slash, keeps the number of
   * segments: segment k of the result is the rewrite of segment k.
   */
  lemma CorrectPathSegments(path: string, op: Operation, options: Options)
    requires op.parameters.Some?
    requires forall i :: 0 <= i < |op.parameters.value| && GetItemFormat(op.parameters.value[i]).pattern.Some? ==>
               '/' !in GetItemFormat(op.parameters.value[i]).pattern.value
    ensures var r := CorrectPath(path, op, options);
      (|r| > 0 && r[0] == '/') <==> (|path| > 0 && path[0] == '/')
    ensures var segments := Split(DropLeadingSlash(path), '/');
      Split(DropLeadingSlash(CorrectPath(path, op, options)), '/') == CompileSegments(segments, op.parameters.value, options)
  {
    var params := op.parameters.value;
    var u := DropLeadingSlash(path);
    var segments := Split(u, '/');
    var compiled := CompileSegments(segments, params, options);
    var joined := Join(compiled, "/");
    var r := CorrectPath(path, op, options);
    forall k | 0 <= k < |compiled| ensures '/' !in compiled[k] {
      CompiledSegmentNoSlash(segments[k], params, options);
    }
    SplitJoin(compiled, '/');
    if |path| > 0 && path[0] == '/' {
      assert r == "/" + joined;
      assert DropLeadingSlash(r) == joined;
    } else {
      assert r == joined;
      if |path| > 0 {
        assert u == path;
        assert segments[0] != "";
        assert segments[0][0] == path[0];
        assert compiled[0] != "" && compiled[0][0] != '/' by {
          if compiled[0] != segments[0] { assert compiled[0][0] == ':'; }
        }
        JoinHeadChar(compiled, "/");
      } else {
        assert segments == [""];
        assert compiled == [""];
      }
    }
  }

  // ---------------------------------------------------------------------
  // Route keys
  // ---------------------------------------------------------------------

  /** `getPathString`: the method name, one slash, then the path. */
  function GetPathString(httpMethod: string, path: string): (r: string)
    ensures |r| == |httpMethod| + 1 + |path|
    ensures forall j :: 0 <= j < |r| ==>
              r[j] == if j < |httpMethod| then httpMethod[j] else if j == |httpMethod| then '/' else path[j - |httpMethod| - 1]
  {
    httpMethod + "/" + path
  }

  lemma PathStringFirstSlash(m: string, p: string)
    requires '/' !in m
    ensures forall j :: 0 <= j < |m| ==> GetPathString(m, p)[j] != '/'
    ensures GetPathString(m, p)[|m|] == '/'
  {
    forall j | 0 <= j < |m| ensures GetPathString(m, p)[j] != '/' {
      assert GetPathString(m, p)[j] == m[j] && m[j] in m;
    }
  }

  /** A method name without a slash is recovered from its route key, and so is the path. */
  lemma PathStringInjective(m1: string, p1: string, m2: string, p2: string)
    requires '/' !in m1 && '/' !in m2
    ensures GetPathString(m1, p1) == GetPathString(m2, p2) <==> m1 == m2 && p1 == p2
  {
    if GetPathString(m1, p1) == GetPathString(m2, p2) {
      var k1, k2 := GetPathString(m1, p1), GetPathString(m2, p2);
      PathStringFirstSlash(m1, p1);
      PathStringFirstSlash(m2, p2);
      if |m1| == |m2| {
        assert m1 == k1[..|m1|] && m2 == k2[..|m2|];
        assert p1 == k1[|m1| + 1..] && p2 == k2[|m2| + 1..];
      }
    }
  }

  // ---------------------------------------------------------------------
  // Base path (see Findings in README)
  // ---------------------------------------------------------------------

  /**
   * `joinPaths([config.basePath, url])` as written: with no `basePath` the
   * first fragment is `undefined`, and when `url` is truthy the loop calls
   * `replace` on it, a TypeError.
   */
  function JoinBaseAsWritten(basePath: Option<string>, url: string): Result<string, string> {
    match basePath
    case Some(b) => Ok(JoinStep([b, url], 1, JoinUpTo([b, url], 1)))
    case None => if url != "" then Err("TypeError: Cannot read property 'replace' of undefined") else Ok(url)
  }

  /** A document without `basePath` cannot be routed as written. */
  lemma MissingBasePathThrows()
    ensures JoinBaseAsWritten(None, "/products").Err?
  {
  }

  /**
   * The joined route path, with an absent `basePath` leaving the url as it
   * is (the API is then served from the root).
   */
  function JoinBase(basePath: Option<string>, url: string): string {
    match basePath
    case Some(b) => JoinStep([b, url], 1, JoinUpTo([b, url], 1))
    case None => url
  }

  /**
   * The correction changes only the failing case, and there an absent
   * `basePath` behaves exactly like an empty one.
   */
  lemma JoinBaseCorrected(basePath: Option<string>, url: string)
    ensures JoinBaseAsWritten(basePath, url).Ok? ==> JoinBaseAsWritten(basePath, url).value == JoinBase(basePath, url)
    ensures basePath.None? && |url| > 0 && url[0] == '/' ==> JoinBase(basePath, url) == JoinBase(Some(""), url)
  {
    if basePath.None? && |url| > 0 && url[0] == '/' {
      var ps := ["", url];
      assert ps[0] == "" && ps[1] != "";
      assert DropTrailingSlash("") == "";
      assert JoinStep(ps, 0, None) == "/";
      assert JoinUpTo(ps, 1) == Some("/");
      assert "/" + url[1..] == url;
    }
  }

  // ---------------------------------------------------------------------
  // Registration
  // ---------------------------------------------------------------------

  predicate AllowedMethod(m: string) {
    m == "get" || m == "post" || m == "put" || m == "delete"
  }

  /** The route url of a path: `joinPaths([basePath, url])`, or `url` without a base path. */
  method JoinBaseUrl(basePath: Option<string>, url: string) returns (joined: string)
    ensures joined == JoinBase(basePath, url)
  {
    match basePath {
      case Some(b) =>
        var j := JoinPaths([b, url]);
        joined := j.value;
      case None =>
        joined := url;
    }
  }

  /** One operation to register: its joined url, its method and the operation. */
  datatype Endpoint = Endpoint(url: string, httpMethod: string, op: Operation)

  /** The allowed operations of one path, in document order. */
  function PathEndpoints(url: string, methods: seq<(string, Operation)>): seq<Endpoint>
    decreases |methods|
  {
    if |methods| == 0 then []
    else
      var last := methods[|methods| - 1];
      PathEndpoints(url, methods[..|methods| - 1]) + (if AllowedMethod(last.0) then [Endpoint(url, last.0, last.1)] else [])
  }

  /** The allowed operations of the first `n` paths, in document order. */
  function EndpointsUpTo(config: Document, n: nat): seq<Endpoint>
    requires n <= |config.paths|
    decreases n
  {
    if n == 0 then []
    else EndpointsUpTo(config, n - 1) + PathEndpoints(JoinBase(config.basePath, config.paths[n - 1].0), config.paths[n - 1].1)
  }

  function Endpoints(config: Document): seq<Endpoint> {
    EndpointsUpTo(config, |config.paths|)
  }

  /**
   * The operations of a path that get registered are its allowed methods,
   * all of them, and nothing else (`PathEndpointsAppend` and `PathEndpointsOne`
   * give the order and the multiplicity).
   */
  lemma {:induction false} PathEndpointsExact(url: string, methods: seq<(string, Operation)>)
    ensures forall e :: e in PathEndpoints(url, methods) ==> e.url == url && AllowedMethod(e.httpMethod) && (e.httpMethod, e.op) in methods
    ensures forall j :: 0 <= j < |methods| && AllowedMethod(methods[j].0) ==> Endpoint(url, methods[j].0, methods[j].1) in PathEndpoints(url, methods)
    ensures |PathEndpoints(url, methods)| <= |methods|
    decreases |methods|
  {
    if |methods| > 0 {
      var init := methods[..|methods| - 1];
      PathEndpointsExact(url, init);
      forall j | 0 <= j < |methods| && AllowedMethod(methods[j].0)
        ensures Endpoint(url, methods[j].0, methods[j].1) in PathEndpoints(url, methods)
      {
        if j < |init| { assert methods[j] == init[j]; }
      }
      forall e | e in PathEndpoints(url, init) ensures (e.httpMethod, e.op) in methods {
        assert (e.httpMethod, e.op) in init;
      }
    }
  }

  /**
   * Registration works entry by entry, in document order: the operations of
   * `a + b` are those of `a` followed by those of `b`.
   */
  lemma {:induction false} PathEndpointsAppend(url: string, a: seq<(string, Operation)>, b: seq<(string, Operation)>)
    ensures PathEndpoints(url, a + b) == PathEndpoints(url, a) + PathEndpoints(url, b)
    decreases |b|
  {
    if |b| == 0 {
      assert a + b == a;
    } else {
      var init := b[..|b| - 1];
      var last := b[|b| - 1];
      var ab := a + b;
      assert ab[..|ab| - 1] == a + init;
      assert ab[|ab| - 1] == last;
      var added := if AllowedMethod(last.0) then [Endpoint(url, last.0, last.1)] else [];
      assert PathEndpoints(url, ab) == PathEndpoints(url, a + init) + added;
      assert PathEndpoints(url, b) == PathEndpoints(url, init) + added;
      PathEndpointsAppend(url, a, init);
      ConcatAssoc(PathEndpoints(url, a), PathEndpoints(url, init), added);
    }
  }

  /** One method entry gives one operation exactly when its method is allowed. */
  lemma PathEndpointsOne(url: string, m: (string, Operation))
    ensures PathEndpoints(url, [m]) == if AllowedMethod(m.0) then [Endpoint(url, m.0, m.1)] else []
  {
    assert [m][..0] == [];
  }

  /** Route table entries: key and handler. */
  function Registration<H>(e: Endpoint, options: Options, callback: (string, string, Operation) -> H): (string, H) {
    (GetPathString(e.httpMethod, CorrectPath(e.url, e.op, options)), callback(e.url, e.httpMethod, e.op))
  }

  /** `Registration` as a function value, fixed options and callback. */
  function RegistrationOf<H>(options: Options, callback: (string, string, Operation) -> H): Endpoint -> (string, H) {
    e => Registration(e, options, callback)
  }

  /** `f` applied to each element, in order. */
  function MapEach<A, B>(xs: seq<A>, f: A -> B): seq<B>
    decreases |xs|
  {
    if |xs| == 0 then [] else MapEach(xs[..|xs| - 1], f) + [f(xs[|xs| - 1])]
  }

  lemma {:induction false} MapEachAt<A, B>(xs: seq<A>, f: A -> B, k: nat)
    requires k < |xs|
    ensures |MapEach(xs, f)| == |xs| && MapEach(xs, f)[k] == f(xs[k])
    decreases |xs|
  {
    var init := xs[..|xs| - 1];
    if |init| > 0 {
      MapEachAt(init, f, if k < |init| then k else 0);
    }
    if k < |init| {
      assert xs[k] == init[k];
    }
  }

  lemma {:induction false} MapEachAppend<A, B>(a: seq<A>, b: seq<A>, f: A -> B)
    ensures MapEach(a + b, f) == MapEach(a, f) + MapEach(b, f)
    decreases |b|
  {
    if |b| == 0 {
      assert a + b == a;
    } else {
      assert (a + b)[..|a + b| - 1] == a + b[..|b| - 1];
      MapEachAppend(a, b[..|b| - 1], f);
    }
  }

  /** The route table entries of the operations, in order. */
  function Registrations<H>(es: seq<Endpoint>, options: Options, callback: (string, string, Operation) -> H): seq<(string, H)> {
    MapEach(es, RegistrationOf(options, callback))
  }

  /**
   * One route per registered operation: the callback is applied exactly once
   * to each, in order, and its result is the handler stored under
   * `method/compiledPath`.
   */
  lemma RegistrationsExact<H>(es: seq<Endpoint>, options: Options, callback: (string, string, Operation) -> H)
    ensures |Registrations(es, options, callback)| == |es|
    ensures forall k :: 0 <= k < |es| ==>
              (Registrations(es, options, callback)[k] ==
                 (GetPathString(es[k].httpMethod, CorrectPath(es[k].url, es[k].op, options)), callback(es[k].url, es[k].httpMethod, es[k].op)))
  {
    if |es| > 0 {
      MapEachAt(es, RegistrationOf(options, callback), 0);
    }
    forall k | 0 <= k < |es|
      ensures Registrations(es, options, callback)[k] ==
                (GetPathString(es[k].httpMethod, CorrectPath(es[k].url, es[k].op, options)), callback(es[k].url, es[k].httpMethod, es[k].op))
    {
      MapEachAt(es, RegistrationOf(options, callback), k);
    }
  }

  lemma RegistrationsAppend<H>(a: seq<Endpoint>, b: seq<Endpoint>, options: Options, callback: (string, string, Operation) -> H)
    ensures Registrations(a + b, options, callback) == Registrations(a, options, callback) + Registrations(b, options, callback)
  {
    MapEachAppend(a, b, RegistrationOf(options, callback));
  }

  /** One more allowed method of a path adds its registration at the end. */
  lemma RegisterStep<H>(url: string, methods: seq<(string, Operation)>, j: nat, options: Options,
                        callback: (string, string, Operation) -> H)
    requires j < |methods| && AllowedMethod(methods[j].0)
    ensures Registrations(PathEndpoints(url, methods[..j + 1]), options, callback) ==
            Registrations(PathEndpoints(url, methods[..j]), options, callback) + [Registration(Endpoint(url, methods[j].0, methods[j].1), options, callback)]
  {
    var e := Endpoint(url, methods[j].0, methods[j].1);
    assert methods[..j + 1][..j] == methods[..j];
    assert PathEndpoints(url, methods[..j + 1]) == PathEndpoints(url, methods[..j]) + [e];
    RegistrationsAppend(PathEndpoints(url, methods[..j]), [e], options, callback);
    assert Registrations([e], options, callback) == [Registration(e, options, callback)] by {
      assert [e][..0] == [];
    }
  }

  lemma ConcatAssoc<T>(x: seq<T>, y: seq<T>, z: seq<T>)
    ensures x + y + z == x + (y + z)
  {
  }

  /** One more path adds the registrations of its allowed methods at the end. */
  lemma PathsStep<H>(config: Document, i: nat, options: Options, callback: (string, string, Operation) -> H)
    requires i < |config.paths|
    ensures Registrations(EndpointsUpTo(config, i + 1), options, callback) ==
            Registrations(EndpointsUpTo(config, i), options, callback) +
            Registrations(PathEndpoints(JoinBase(config.basePath, config.paths[i].0), config.paths[i].1), options, callback)
  {
    RegistrationsAppend(EndpointsUpTo(config, i), PathEndpoints(JoinBase(config.basePath, config.paths[i].0), config.paths[i].1), options, callback);
  }

  /** The match the foreign matcher reports: the handler and the captured parameters. */
  datatype RouteMatch<H> = RouteMatch(handler: H, params: map<string, string>)

  /**
   * The Routes.js instance.  The source keeps ONE per process, shared by
   * every `ApiRouter`; here it is an object the routers are handed.
   */
  class RouteTable<H> {
    var routes: seq<(string, H)>

    constructor ()
      ensures routes == []
    {
      routes := [];
    }

    /** `router.addRoute`. */
    method AddRoute(key: string, handler: H)
      modifies this
      ensures routes == old(routes) + [(key, handler)]
    {
      routes := routes + [(key, handler)];
    }
  }

  class ApiRouter<H> {
    const table: RouteTable<H>

    /**
     * Registers every allowed operation of `config` into the shared
     * `table`, after the routes already there.
     */
    constructor (config: Document, options: Options, callback: (string, string, Operation) -> H, table: RouteTable<H>)
      modifies table
      ensures this.table == table
      ensures table.routes == old(table.routes) + Registrations(Endpoints(config), options, callback)
    {
      this.table := table;
      new;
      RegisterPaths(config, options, callback);
    }

    /** The outer loop of the constructor: every path of the document, in order. */
    method RegisterPaths(config: Document, options: Options, callback: (string, string, Operation) -> H)
      modifies table
      ensures table.routes == old(table.routes) + Registrations(Endpoints(config), options, callback)
    {
      var i := 0;
      while i < |config.paths|
        invariant 0 <= i <= |config.paths|
        invariant table.routes == old(table.routes) + Registrations(EndpointsUpTo(config, i), options, callback)
      {
        var url := config.paths[i].0;
        var methods := config.paths[i].1;
        var joined := JoinBaseUrl(config.basePath, url);
        ghost var done := Registrations(EndpointsUpTo(config, i), options, callback);
        ghost var added := Registrations(PathEndpoints(joined, methods), options, callback);
        RegisterPath(joined, methods, options, callback);
        assert table.routes == old(table.routes) + done + added;
        PathsStep(config, i, options, callback);
        ConcatAssoc(old(table.routes), done, added);
        i := i + 1;
      }
    }

    /** The inner loop of the constructor: the operations of one path. */
    method RegisterPath(joined: string, methods: seq<(string, Operation)>, options: Options,
                        callback: (string, string, Operation) -> H)
      modifies table
      ensures table.routes == old(table.routes) + Registrations(PathEndpoints(joined, methods), options, callback)
    {
      var j := 0;
      while j < |methods|
        invariant 0 <= j <= |methods|
        invariant table.routes == old(table.routes) + Registrations(PathEndpoints(joined, methods[..j]), options, callback)
      {
        var name := methods[j].0;
        var operation := methods[j].1;
        assert methods[..j + 1][..j] == methods[..j];
        if AllowedMethod(name) {
          var route := CorrectPath(joined, operation, options);
          var response := callback(joined, name, operation);
          ghost var e := Endpoint(joined, name, operation);
          assert (GetPathString(name, route), response) == Registration(e, options, callback);
          table.AddRoute(GetPathString(name, route), response);
          RegisterStep(joined, methods, j, options, callback);
        } else {
          assert PathEndpoints(joined, methods[..j + 1]) == PathEndpoints(joined, methods[..j]);
        }
        j := j + 1;
      }
      assert methods[..j] == methods;
    }

    /**
     * `ApiRouter.prototype.match`: the request's pathname (the url up to its
     * first `?`) is looked up under `method/pathname` by the foreign
     * `matcher`; on a match the parsed query is merged over the captured
     * parameters, query values winning; no match is returned as it is.
     */
    method Match(httpMethod: string, url: string, matcher: (seq<(string, H)>, string) -> Option<RouteMatch<H>>,
                 decode: string -> string) returns (r: Option<RouteMatch<H>>)
      ensures var found := matcher(table.routes, GetPathString(httpMethod, Pathname(url)));
        && (r.None? <==> found.None?)
        && (r.Some? ==> r.value.handler == found.value.handler
                        && r.value.params == found.value.params + QueryMap(QueryPieces(Query(url)), decode))
      ensures var query := QueryMap(QueryPieces(Query(url)), decode);
        r.Some? ==> forall k :: k in query ==> k in r.value.params && r.value.params[k] == query[k]
      ensures var found := matcher(table.routes, GetPathString(httpMethod, Pathname(url)));
        var query := QueryMap(QueryPieces(Query(url)), decode);
        r.Some? ==> forall k :: k in found.value.params && k !in query ==> r.value.params[k] == found.value.params[k]
    {
      var pathname := Split(url, '?')[0];
      var matchingRoute := matcher(table.routes, GetPathString(httpMethod, pathname));
      r := matchingRoute;
      if matchingRoute.Some? {
        var query := ParseQuery(Query(url), decode);
        r := Some(RouteMatch(matchingRoute.value.handler, matchingRoute.value.params + query));
      }
    }
  }

  /** `url.parse(path).pathname`, taken as the text before the first `?`. */
  function Pathname(url: string): (r: string)
    ensures |r| <= |url| && '?' !in r && url[..|r|] == r && (|r| == |url| || url[|r|] == '?')
  {
    Split(url, '?')[0]
  }

  /** `url.parse(path).query`: the text after the first `?`, absent without one. */
  function Query(url: string): (r: Option<string>)
    ensures r.None? <==> '?' !in url
    ensures r.Some? ==> url == Pathname(url) + "?" + r.value
  {
    var p := Pathname(url);
    if |p| == |url| then (assert url[..|p|] == url; None) else Some(url[|p| + 1..])
  }
}
