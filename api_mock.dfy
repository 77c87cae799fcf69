/**
 * The `SwaggerAPIMock` entry point: validating the document, merging the
 * option defaults under the caller's options, generating the mock data and
 * building the router, in that order.
 *
 * The swagger-tools validator is foreign and callback-based: its outcome is
 * the parameter `validation`, and its callback is taken to run before the
 * constructor goes on.  Warnings are only printed, which is left out.
 */
module ApiMock {
  import opened Wrappers
  import opened Json
  import opened Schema
  import opened Text
  import opened MockData
  import opened Router

  // ---------------------------------------------------------------------
  // Options
  // ---------------------------------------------------------------------

  /** The options object a caller passes; `None` is an absent (or `undefined`) property. */
  datatype UserOptions = UserOptions(
    ignoreHost: Option<bool>,
    defaultLimit: Option<int>,
    defaultMin: Option<int>,
    defaultMax: Option<int>,
    mockData: Option<seq<(string, Json)>>)

  /** No options at all. */
  const NoOptions := UserOptions(None, None, None, None, None)

  /**
   * `_.merge({ignoreHost: true, defaultLimit: 2, defaultMin: 0, defaultMax: 15}, options)`:
   * every option the caller supplies is kept; the defaults fill the rest
   * (`MergeOptionsDefaults`).
   */
  function MergeOptions(user: UserOptions): (o: Options)
    ensures user.ignoreHost.Some? ==> o.ignoreHost == user.ignoreHost.value
    ensures user.defaultLimit.Some? ==> o.defaultLimit == user.defaultLimit.value
    ensures user.defaultMin.Some? ==> o.defaultMin == user.defaultMin.value
    ensures user.defaultMax.Some? ==> o.defaultMax == user.defaultMax.value
    ensures o.mockData == user.mockData
  {
    Options(
      user.ignoreHost.GetOr(true),
      user.defaultLimit.GetOr(2),
      user.defaultMin.GetOr(0),
      user.defaultMax.GetOr(15),
      user.mockData)
  }

  /** Options as a caller would pass them, every property present. */
  function AsUserOptions(o: Options): UserOptions {
    UserOptions(Some(o.ignoreHost), Some(o.defaultLimit), Some(o.defaultMin), Some(o.defaultMax), o.mockData)
  }

  /**
   * Every omitted option takes its default; there is no default for
   * `mockData`, which stays absent when the caller gives none.
   */
  lemma MergeOptionsDefaults(user: UserOptions)
    ensures var o := MergeOptions(user);
      (user.ignoreHost.None? ==> o.ignoreHost) &&
      (user.defaultLimit.None? ==> o.defaultLimit == 2) &&
      (user.defaultMin.None? ==> o.defaultMin == 0) &&
      (user.defaultMax.None? ==> o.defaultMax == 15) &&
      (user.mockData.None? ==> o.mockData.None?)
  {
  }

  /**
   * Merging is a projection: merged options passed back in come out
   * unchanged, and options that supply every property are taken as they are.
   */
  lemma MergeOptionsIdempotent(user: UserOptions, o: Options)
    ensures MergeOptions(AsUserOptions(MergeOptions(user))) == MergeOptions(user)
    ensures MergeOptions(AsUserOptions(o)) == o
  {
  }

  // ---------------------------------------------------------------------
  // Validation
  // ---------------------------------------------------------------------

  /** One entry of the validator's `warnings` or `errors`. */
  datatype ValidationError = ValidationError(path: seq<string>, message: string)

  /** The validator's result object. */
  datatype ValidationResult = ValidationResult(warnings: seq<ValidationError>, errors: seq<ValidationError>)

  /** What the validator hands its callback: an error, no result, or a result. */
  datatype Validation =
    | ValidatorFailed(err: string)
    | NoResult
    | Reported(result: ValidationResult)

  const HeaderLine1 := "The Swagger document is invalid..."
  const HeaderLine2 := "Errors:"

  /** `'The Swagger document is invalid...\nErrors:\n'`. */
  const InvalidHeader := HeaderLine1 + "\n" + HeaderLine2 + "\n"

  /** The text of one error's line: `'#/' + path.join('/') + ': ' + message`. */
  function ErrorText(e: ValidationError): string {
    "#/" + Join(e.path, "/") + ": " + e.message
  }

  /** The text of each error, in order. */
  function ErrorTexts(errors: seq<ValidationError>): (r: seq<string>)
    ensures |r| == |errors|
    ensures forall k :: 0 <= k < |errors| ==> r[k] == ErrorText(errors[k])
  {
    seq(|errors|, k requires 0 <= k < |errors| => ErrorText(errors[k]))
  }

  lemma ErrorTextsCons(errors: seq<ValidationError>)
    requires |errors| > 0
    ensures ErrorTexts(errors) == [ErrorText(errors[0])] + ErrorTexts(errors[1..])
  {
    assert ErrorTexts(errors)[1..] == ErrorTexts(errors[1..]);
  }

  /** The lines the error loop appends, one per error, each ending in a newline. */
  function ErrorLines(errors: seq<ValidationError>): string
    decreases |errors|
  {
    if |errors| == 0 then "" else ErrorText(errors[0]) + "\n" + ErrorLines(errors[1..])
  }

  /** The message thrown for a document with errors. */
  function InvalidMessage(errors: seq<ValidationError>): string {
    InvalidHeader + ErrorLines(errors)
  }

  /**
   * `validate`: the validator's own error is rethrown; a result with errors
   * throws `InvalidMessage`; otherwise validation passes.
   */
  function ValidateSpec(v: Validation): Result<(), string> {
    match v
    case ValidatorFailed(err) => Err(err)
    case NoResult => Ok(())
    case Reported(result) => if |result.errors| > 0 then Err(InvalidMessage(result.errors)) else Ok(())
  }

  /** Appending one more error appends one more line. */
  lemma {:induction false} ErrorLinesSnoc(errors: seq<ValidationError>, e: ValidationError)
    ensures ErrorLines(errors + [e]) == ErrorLines(errors) + ErrorText(e) + "\n"
    decreases |errors|
  {
    if |errors| == 0 {
      assert (errors + [e])[1..] == [];
    } else {
      assert (errors + [e])[1..] == errors[1..] + [e];
      ErrorLinesSnoc(errors[1..], e);
    }
  }

  /** `validate` itself: the error message is built line by line. */
  method Validate(v: Validation) returns (r: Result<(), string>)
    ensures r == ValidateSpec(v)
  {
    match v {
      case ValidatorFailed(err) =>
        return Err(err);
      case NoResult =>
        return Ok(());
      case Reported(result) =>
        if |result.errors| > 0 {
          var message := InvalidHeader;
          var i := 0;
          while i < |result.errors|
            invariant 0 <= i <= |result.errors|
            invariant message == InvalidHeader + ErrorLines(result.errors[..i])
          {
            var err := result.errors[i];
            assert result.errors[..i + 1] == result.errors[..i] + [err];
            ErrorLinesSnoc(result.errors[..i], err);
            var line := "#/" + Join(err.path, "/") + ": " + err.message + "\n";
            assert line == ErrorText(err) + "\n";
            message := message + line;
            i := i + 1;
          }
          assert result.errors[..i] == result.errors;
          return Err(message);
        }
        return Ok(());
    }
  }

  /**
   * Warnings never abort: a result fails validation exactly when it has
   * errors, whatever its warnings.
   */
  lemma WarningsNeverAbort(warnings: seq<ValidationError>, errors: seq<ValidationError>)
    ensures ValidateSpec(Reported(ValidationResult(warnings, errors))).Ok? <==> |errors| == 0
    ensures ValidateSpec(Reported(ValidationResult(warnings, errors))) == ValidateSpec(Reported(ValidationResult([], errors)))
  {
  }

  /** An error with no newline in its path or message gives a one-line text. */
  lemma ErrorTextOneLine(e: ValidationError)
    requires '\n' !in e.message
    requires forall k :: 0 <= k < |e.path| ==> '\n' !in e.path[k]
    ensures '\n' !in ErrorText(e)
  {
    JoinAvoids(e.path, "/", '\n');
  }

  /** The error lines split back into one text per error, then the empty tail. */
  lemma {:induction false} ErrorLinesSplit(errors: seq<ValidationError>)
    requires forall k :: 0 <= k < |errors| ==> '\n' !in errors[k].message
    requires forall k, j :: 0 <= k < |errors| && 0 <= j < |errors[k].path| ==> '\n' !in errors[k].path[j]
    ensures Split(ErrorLines(errors), '\n') == ErrorTexts(errors) + [""]
    decreases |errors|
  {
    if |errors| > 0 {
      var e := errors[0];
      ErrorTextOneLine(e);
      ErrorLinesSplit(errors[1..]);
      assert ErrorLines(errors) == ErrorText(e) + "\n" + ErrorLines(errors[1..]);
      SplitLine(ErrorText(e), ErrorLines(errors[1..]), '\n');
      ErrorTextsCons(errors);
    }
  }

  lemma NoNewlineInHeader()
    ensures '\n' !in HeaderLine1 && '\n' !in HeaderLine2
  {
  }

  /** The header splits into its two lines, ahead of whatever follows it. */
  lemma HeaderSplit(rest: string)
    ensures Split(InvalidHeader + rest, '\n') == [HeaderLine1, HeaderLine2] + Split(rest, '\n')
  {
    NoNewlineInHeader();
    SplitTwoLines(HeaderLine1, HeaderLine2, rest, '\n');
  }

  /**
   * The thrown message, split at newlines: the two header lines, then one
   * line `#/<path>: <message>` per error in order, then the empty string
   * after the final newline (for errors whose paths and messages hold no
   * newline).
   */
  lemma InvalidMessageLines(errors: seq<ValidationError>)
    requires forall k :: 0 <= k < |errors| ==> '\n' !in errors[k].message
    requires forall k, j :: 0 <= k < |errors| && 0 <= j < |errors[k].path| ==> '\n' !in errors[k].path[j]
    ensures Split(InvalidMessage(errors), '\n') ==
      [HeaderLine1, HeaderLine2] + ErrorTexts(errors) + [""]
  {
    ErrorLinesSplit(errors);
    HeaderSplit(ErrorLines(errors));
  }

  // ---------------------------------------------------------------------
  // Construction
  // ---------------------------------------------------------------------

  /** Why construction throws: validation, or generation. */
  datatype MockError = Invalid(message: string) | GenerationFailed(error: GenError)

  /** A constructed `SwaggerAPIMock`. */
  class SwaggerAPIMock<H> {
    const config: Document
    const options: Options
    const mockData: MockData
    const router: ApiRouter<H>

    constructor (config: Document, options: Options, mockData: MockData, router: ApiRouter<H>)
      ensures this.config == config && this.options == options
      ensures this.mockData == mockData && this.router == router
    {
      this.config := config;
      this.options := options;
      this.mockData := mockData;
      this.router := router;
    }
  }

  /** The context generation runs in for a document and its merged options. */
  function GenerationContext(config: Document, options: Options, sample: string -> string): Context {
    Context(Constructors(config.definitions), options, sample)
  }

  /**
   * `new SwaggerAPIMock(config, options, responseCallback)`: validation
   * first (nothing else happens when it throws), then the defaults merged
   * under the caller's options, then `generate` on fresh data (no route is
   * registered when it throws), then the router, which registers every
   * operation of the document under the merged options.
   */
  method NewSwaggerAPIMock<H>(config: Document, validation: Validation, user: UserOptions,
                              sample: string -> string, callback: (string, string, Operation) -> H,
                              table: RouteTable<H>, fuel: nat)
    returns (r: Result<SwaggerAPIMock<H>, MockError>)
    modifies table
    ensures ValidateSpec(validation).Err? ==>
              r == Err(Invalid(ValidateSpec(validation).error)) && table.routes == old(table.routes)
    ensures var generated := GenerateSpec(GenerationContext(config, MergeOptions(user), sample), map[], fuel);
      ValidateSpec(validation).Ok? && generated.Err? ==>
        r == Err(GenerationFailed(generated.error)) && table.routes == old(table.routes)
    ensures var generated := GenerateSpec(GenerationContext(config, MergeOptions(user), sample), map[], fuel);
      ValidateSpec(validation).Ok? && generated.Ok? ==>
        r.Ok? && r.value.config == config && r.value.options == MergeOptions(user) &&
        r.value.mockData.data == generated.value &&
        r.value.router.table == table &&
        table.routes == old(table.routes) + Registrations(Endpoints(config), MergeOptions(user), callback)
  {
    var valid := Validate(validation);
    if valid.Err? {
      return Err(Invalid(valid.error));
    }
    var options := MergeOptions(user);
    var mockData := new MockData(config, options, sample);
    var generated := mockData.Generate(fuel);
    if generated.Err? {
      return Err(GenerationFailed(generated.error));
    }
    var router := new ApiRouter(config, options, callback, table);
    var mock := new SwaggerAPIMock(config, options, mockData, router);
    return Ok(mock);
  }

  /**
   * Without a `mockData` option, reading a definition's seeds as the code
   * is written throws; with no definitions the code never reads them.
   */
  lemma AbsentMockDataThrows(user: UserOptions, config: Document)
    requires user.mockData.None? && |config.definitions| > 0
    ensures SeedArrayAsWritten(MergeOptions(user).mockData, config.definitions[0].0).Err?
    ensures NoOptions.mockData.None?
  {
  }
}
