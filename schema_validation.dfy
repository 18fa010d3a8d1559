/**
 * Construction of the validation result (RenovateSchemaValidationService.validate
 * and the ValidationResult record). The JSON parser and the schema engine are
 * foreign code: a function supplies what they report for a document.
 */
module RenovateSchemaValidationService {
  import opened Wrappers

  /**
   * What parsing and schema-checking a document reports: an exception with its
   * message, or the schema's messages in the order the message set yields them.
   */
  datatype SchemaCheck = Threw(message: string) | Checked(messages: seq<string>)

  /** The ValidationResult record; an absent errorMessage is Java's null. */
  datatype ValidationResult = ValidationResult(valid: bool, errorMessage: Option<string>)

  const ReportTitle: string := "JSON validation failed:"
  const ReportHeader: string := ReportTitle + "\n"
  const InvalidJsonPrefix: string := "Invalid JSON: "

  /** ValidationResult.success(). */
  function ValidationSuccess(): ValidationResult {
    ValidationResult(true, None)
  }

  /** ValidationResult.failure(String). */
  function FailureWithMessage(message: string): ValidationResult {
    ValidationResult(false, Some(message))
  }

  // ---------------------------------------------------------------------------
  // String.trim
  // ---------------------------------------------------------------------------

  /** What String.trim removes: every character up to and including U+0020. */
  predicate IsTrimmable(c: char) {
    c <= ' '
  }

  /** The first index at or after `i` that is not trimmable, or |s|. */
  function SkipLeading(s: string, i: nat): (k: nat)
    requires i <= |s|
    ensures i <= k <= |s|
    ensures forall m :: i <= m < k ==> IsTrimmable(s[m])
    ensures k == |s| || !IsTrimmable(s[k])
    decreases |s| - i
  {
    if i == |s| || !IsTrimmable(s[i]) then i else SkipLeading(s, i + 1)
  }

  /** The end of s[lo..j] once its trailing trimmable characters are dropped. */
  function SkipTrailing(s: string, lo: nat, j: nat): (k: nat)
    requires lo <= j <= |s|
    ensures lo <= k <= j
    ensures forall m :: k <= m < j ==> IsTrimmable(s[m])
    ensures k == lo || !IsTrimmable(s[k - 1])
    decreases j
  {
    if j == lo || !IsTrimmable(s[j - 1]) then j else SkipTrailing(s, lo, j - 1)
  }

  /** Everything of `s` outside s[i..j] is trimmable. */
  ghost predicate OnlyTrimmableOutside(s: string, i: int, j: int) {
    && 0 <= i <= j <= |s|
    && (forall k :: 0 <= k < i ==> IsTrimmable(s[k]))
    && (forall k :: j <= k < |s| ==> IsTrimmable(s[k]))
  }

  /**
   * String.trim: the longest middle part of `s` that neither starts nor ends
   * with a trimmable character; everything cut off is trimmable.
   */
  function Trim(s: string): (r: string)
    ensures exists i, j :: OnlyTrimmableOutside(s, i, j) && r == s[i..j]
    ensures r == [] || (!IsTrimmable(r[0]) && !IsTrimmable(r[|r| - 1]))
  {
    var i := SkipLeading(s, 0);
    var j := SkipTrailing(s, i, |s|);
    assert OnlyTrimmableOutside(s, i, j);
    s[i..j]
  }

  // ---------------------------------------------------------------------------
  // ValidationResult.failure(Set<ValidationMessage>)
  // ---------------------------------------------------------------------------

  /** One line of the report for one schema message. */
  function ReportLine(message: string): string {
    "- " + message + "\n"
  }

  /** The report lines for `errors`, in iteration order. */
  function ReportLines(errors: seq<string>): string {
    if errors == [] then ""
    else ReportLines(errors[..|errors| - 1]) + ReportLine(errors[|errors| - 1])
  }

  /** The result failure(Set) builds: the header and one line per message, trimmed. */
  function FailureReport(errors: seq<string>): ValidationResult {
    ValidationResult(false, Some(Trim(ReportHeader + ReportLines(errors))))
  }

  /**
   * failure(Set): append one line per message to a buffer that starts with the
   * header, then trim it.
   */
  method FailureFromErrors(errors: seq<string>) returns (r: ValidationResult)
    ensures r == FailureReport(errors)
  {
    var sb := ReportHeader;
    var i := 0;
    while i < |errors|
      invariant 0 <= i <= |errors|
      invariant sb == ReportHeader + ReportLines(errors[..i])
    {
      assert errors[..i + 1][..i] == errors[..i];
      sb := sb + "- " + errors[i] + "\n";
      i := i + 1;
    }
    assert errors[..|errors|] == errors;
    r := ValidationResult(false, Some(Trim(sb)));
  }

  /** Whatever follows the header, the trimmed text starts with the title and ends visibly. */
  lemma TitleSurvivesTrim(lines: string)
    ensures var m := Trim(ReportHeader + lines);
      |ReportTitle| <= |m| && m[..|ReportTitle|] == ReportTitle && !IsTrimmable(m[|m| - 1])
  {
    var s := ReportHeader + lines;
    assert s[..|ReportTitle|] == ReportTitle;
    assert !IsTrimmable(s[0]) && !IsTrimmable(s[|ReportTitle| - 1]);
    assert SkipLeading(s, 0) == 0;
    var j := SkipTrailing(s, 0, |s|);
    assert |ReportTitle| <= j;
    assert Trim(s) == s[..j];
  }

  /**
   * The failure message starts with "JSON validation failed:" and its last
   * character is above U+0020, whatever the messages are.
   */
  lemma ReportShape(errors: seq<string>)
    ensures var m := FailureReport(errors).errorMessage.value;
      |ReportTitle| <= |m| && m[..|ReportTitle|] == ReportTitle && !IsTrimmable(m[|m| - 1])
  {
    var lines := ReportLines(errors);
    TitleSurvivesTrim(lines);
    assert FailureReport(errors).errorMessage.value == Trim(ReportHeader + lines);
  }

  /**
   * When the last message ends in a visible character, trimming removes only
   * the final newline: every message keeps its "- " line.
   */
  lemma TrimDropsOnlyFinalNewline(errors: seq<string>)
    requires errors != []
    requires var last := errors[|errors| - 1]; last != [] && !IsTrimmable(last[|last| - 1])
    ensures FailureReport(errors).errorMessage.value + "\n" == ReportHeader + ReportLines(errors)
  {
    var s := ReportHeader + ReportLines(errors);
    var last := errors[|errors| - 1];
    assert s == ReportHeader + ReportLines(errors[..|errors| - 1]) + "- " + last + "\n";
    assert IsTrimmable(s[|s| - 1]) && !IsTrimmable(s[|s| - 2]);
    assert SkipLeading(s, 0) == 0;
    assert SkipTrailing(s, 0, |s|) == SkipTrailing(s, 0, |s| - 1) == |s| - 1;
    assert s[..|s| - 1] + "\n" == s;
  }

  // ---------------------------------------------------------------------------
  // validate
  // ---------------------------------------------------------------------------

  /**
   * validate: no schema messages gives success with no error message; some
   * messages give the trimmed report; an exception while parsing or validating
   * gives "Invalid JSON: " and its message. No path escapes with an exception.
   */
  function Validate(jsonString: string, engine: string -> SchemaCheck): (r: ValidationResult)
    ensures r.valid <==> engine(jsonString) == Checked([])
    ensures r.valid ==> r.errorMessage.None?
    ensures !r.valid ==> r.errorMessage.Some?
    ensures engine(jsonString).Threw? ==>
      r.errorMessage == Some(InvalidJsonPrefix + engine(jsonString).message)
    ensures engine(jsonString).Checked? && engine(jsonString).messages != [] ==>
      r == FailureReport(engine(jsonString).messages)
    ensures engine(jsonString).Checked? && engine(jsonString).messages != [] ==>
      var m := r.errorMessage.value;
      |ReportTitle| <= |m| && m[..|ReportTitle|] == ReportTitle && !IsTrimmable(m[|m| - 1])
  {
    match engine(jsonString)
    case Threw(message) => FailureWithMessage(InvalidJsonPrefix + message)
    case Checked(errors) =>
      if errors == [] then ValidationSuccess()
      else
        ReportShape(errors);
        FailureReport(errors)
  }
}
