/**
 * The HTML health report: the template expands an ordered list of check
 * outcomes into one table row per outcome, and the parsed template is built
 * lazily, once, and then reused.
 */
module Templates {
  import opened Wrappers
  import opened HealthServer

  /** The row classes and status glyphs of the report (HTML character references). */
  const PassingClass: string := "passing"
  const FailingClass: string := "failing"
  const CheckMark: string := "&#x2714"
  const CrossMark: string := "&#x2718"

  /** The name the report template is parsed under. */
  const ReportTemplateName: string := "healthserver-report-template"

  /** The report template's text before minification. */
  const ReportTemplateText: string := @"
<html>
    <head>
        <meta charset=""utf-8"">
        <title>Health Status</title>
        <style>
            table {
                border-collapse: collapse;
            }
            tr {
                height: 2em;
            }
            td {
                padding-left: 0.7em;
                padding-right: 0.7em;
            }
            .status {
                text-align: center;
            }
            .failing {
                background-color: red;
            }
            .passing {
                background-color: lawngreen;
            }
        </style>
    </head>
    <body>
        <table>
            {{range .}}
                <tr class=""{{if not .Err}}passing{{else}}failing{{end}}"">
                    <td class=""status"">{{if not .Err}}&#x2714{{else}}&#x2718{{end}}</td>
                    <td>{{.Name}}</td>
                </tr>
            {{end}}
        </table>
    </body>
</html>
"

  /** What the template is executed on, per check: its name and the error it returned. */
  datatype Outcome = Outcome(name: string, err: Option<Error>)

  /**
   * The truth of `.Err` in a template condition: a nil error is false, and
   * so is a non-nil error whose dynamic value is an empty value.
   */
  predicate ErrIsTrue(err: Option<Error>) {
    err.Some? && !err.value.emptyValue
  }

  /** One table row: the row's class, the status cell and the name cell. */
  datatype Row = Row(rowClass: string, status: string, name: string)

  /** The row the template emits for one outcome. */
  function RenderRow(o: Outcome): (row: Row)
    ensures row.name == o.name
    ensures row.rowClass == PassingClass <==> !ErrIsTrue(o.err)
    ensures row.rowClass == FailingClass <==> ErrIsTrue(o.err)
    ensures row.status == CheckMark <==> !ErrIsTrue(o.err)
    ensures row.status == CrossMark <==> ErrIsTrue(o.err)
  {
    if !ErrIsTrue(o.err) then Row(PassingClass, CheckMark, o.name)
    else Row(FailingClass, CrossMark, o.name)
  }

  /**
   * The rows of the report, one per outcome and in the outcomes' order; a
   * row is passing, with a check mark, exactly when its outcome's error is
   * false as a template condition, and otherwise failing, with a cross; the
   * name cell is the outcome's name. No outcomes give a table without rows.
   */
  function Render(outcomes: seq<Outcome>): (rows: seq<Row>)
    ensures |rows| == |outcomes|
    ensures forall i :: 0 <= i < |rows| ==> rows[i].name == outcomes[i].name
    ensures forall i :: 0 <= i < |rows| ==>
      (rows[i].rowClass == PassingClass <==> !ErrIsTrue(outcomes[i].err)) &&
      (rows[i].rowClass == FailingClass <==> ErrIsTrue(outcomes[i].err))
    ensures forall i :: 0 <= i < |rows| ==>
      (rows[i].status == CheckMark <==> !ErrIsTrue(outcomes[i].err)) &&
      (rows[i].status == CrossMark <==> ErrIsTrue(outcomes[i].err))
  {
    if outcomes == [] then []
    else [RenderRow(outcomes[0])] + Render(outcomes[1..])
  }

  /** A nil error always renders as a passing row with a check mark. */
  lemma NilErrorPasses(o: Outcome)
    requires o.err.None?
    ensures RenderRow(o) == Row(PassingClass, CheckMark, o.name)
  {
  }

  /**
   * A non-nil error whose dynamic value is empty renders as passing, although
   * the status aggregation counts the same check as failing.
   */
  lemma EmptyErrorValuePasses(name: string, message: string)
    ensures Check(Some(Error(message, true))).Fails()
    ensures RenderRow(Outcome(name, Some(Error(message, true)))).rowClass == PassingClass
  {
  }

  /** A row's class and glyph agree: passing with a check mark or failing with a cross. */
  predicate Consistent(row: Row) {
    (row.rowClass == PassingClass && row.status == CheckMark) ||
    (row.rowClass == FailingClass && row.status == CrossMark)
  }

  lemma RenderConsistent(outcomes: seq<Outcome>)
    ensures forall i :: 0 <= i < |Render(outcomes)| ==> Consistent(Render(outcomes)[i])
  {
  }

  /** What a reader of the report learns about one check: its name and whether it passed. */
  datatype Summary = Summary(name: string, passed: bool)

  function Summarize(outcomes: seq<Outcome>): (s: seq<Summary>)
    ensures |s| == |outcomes|
    ensures forall i :: 0 <= i < |s| ==> s[i] == Summary(outcomes[i].name, !ErrIsTrue(outcomes[i].err))
  {
    if outcomes == [] then [] else [Summary(outcomes[0].name, !ErrIsTrue(outcomes[0].err))] + Summarize(outcomes[1..])
  }

  /** Reads the rows of a report back; a row that is neither passing nor failing reads as failing. */
  function ReadRows(rows: seq<Row>): (s: seq<Summary>)
    ensures |s| == |rows|
    ensures forall i :: 0 <= i < |s| ==> s[i] == Summary(rows[i].name, rows[i].rowClass == PassingClass)
  {
    if rows == [] then [] else [Summary(rows[0].name, rows[0].rowClass == PassingClass)] + ReadRows(rows[1..])
  }

  /**
   * Reading the report back gives every check's name and pass/fail, in the
   * outcomes' order, and nothing more: the error messages are not shown.
   */
  lemma ReadRender(outcomes: seq<Outcome>)
    ensures ReadRows(Render(outcomes)) == Summarize(outcomes)
  {
  }

  /**
   * The report depends only on the names and the pass/fail of the outcomes:
   * outcomes that agree on these render to the same rows.
   */
  lemma RenderDependsOnlyOnSummary(a: seq<Outcome>, b: seq<Outcome>)
    requires Summarize(a) == Summarize(b)
    ensures Render(a) == Render(b)
  {
  }

  /** Rows are emitted per outcome, position by position: rendering distributes over concatenation. */
  lemma RenderConcat(a: seq<Outcome>, b: seq<Outcome>)
    ensures Render(a + b) == Render(a) + Render(b)
  {
  }

  /** The error a minification or a parse fails with; the build panics with it. */
  datatype BuildError = BuildError(message: string)

  /** What parsing produced: the name it was parsed under and the (minified) text it was parsed from. */
  datatype ParsedTemplate = ParsedTemplate(name: string, text: string)

  /**
   * Builds a template from the outcome of minifying the template text:
   * `parse` stands for the template parser and gives the parse error, `None`
   * when the text parses. A failure is the panic the build raises.
   */
  function BuildFrom(minified: Result<string, BuildError>, parse: string -> Option<BuildError>): (r: Result<ParsedTemplate, BuildError>)
    ensures minified.Failure? ==> r == Failure(minified.error)
    ensures minified.Success? && parse(minified.value).Some? ==> r == Failure(parse(minified.value).value)
    ensures r.Success? <==> minified.Success? && parse(minified.value).None?
    ensures r.Success? ==> r.value == ParsedTemplate(ReportTemplateName, minified.value)
  {
    match minified
    case Failure(e) => Failure(e)
    case Success(text) =>
      match parse(text)
      case Some(e) => Failure(e)
      case None => Success(ParsedTemplate(ReportTemplateName, text))
  }

  /** Builds the report template: minifies the template text and parses the result. */
  function Build(minify: string -> Result<string, BuildError>, parse: string -> Option<BuildError>): Result<ParsedTemplate, BuildError> {
    BuildFrom(minify(ReportTemplateText), parse)
  }

  /** A parsed template object; callers hold a reference to it. */
  class Template {
    const parsed: ParsedTemplate

    constructor (parsed: ParsedTemplate)
      ensures this.parsed == parsed
    {
      this.parsed := parsed;
    }
  }

  /**
   * The process-wide slot holding the report template once it was built,
   * with the minifier and the template parser it builds with.
   */
  class ReportTemplateCache {
    const minify: string -> Result<string, BuildError>
    const parse: string -> Option<BuildError>
    var reportTemplate: Template?
    /** How many times the template was built (minified and parsed). */
    ghost var buildAttempts: nat

    /** A stored template holds what the build gives. */
    ghost predicate Valid()
      reads this
    {
      reportTemplate != null ==> Build(minify, parse) == Success(reportTemplate.parsed)
    }

    constructor (minify: string -> Result<string, BuildError>, parse: string -> Option<BuildError>)
      ensures Valid()
      ensures this.minify == minify && this.parse == parse
      ensures reportTemplate == null && buildAttempts == 0
    {
      this.minify := minify;
      this.parse := parse;
      reportTemplate := null;
      buildAttempts := 0;
    }

    /** Minifies the template text and parses it; every build is counted. */
    method BuildTemplate() returns (r: Result<ParsedTemplate, BuildError>)
      modifies this`buildAttempts
      ensures buildAttempts == old(buildAttempts) + 1
      ensures r == Build(minify, parse)
    {
      buildAttempts := buildAttempts + 1;
      var minified := minify(ReportTemplateText);
      if minified.Failure? {
        return Failure(minified.error);
      }
      var text := minified.value;
      var parseError := parse(text);
      if parseError.Some? {
        return Failure(parseError.value);
      }
      r := Success(ParsedTemplate(ReportTemplateName, text));
    }

    /**
     * Returns the report template, building it on the first call. A cached
     * template is returned as it is: the same object, without building.
     * Otherwise the template is built once; a minification or parse failure
     * panics and nothing is cached, and a successful build is stored in a
     * new object that is cached and returned.
     */
    method GetReportTemplate() returns (r: Result<Template, BuildError>)
      requires Valid()
      modifies this
      ensures Valid()
      ensures old(reportTemplate) != null ==>
        r == Success(old(reportTemplate)) && reportTemplate == old(reportTemplate) &&
        buildAttempts == old(buildAttempts)
      ensures old(reportTemplate) == null ==> buildAttempts == old(buildAttempts) + 1
      ensures old(reportTemplate) == null && Build(minify, parse).Failure? ==>
        r == Failure(Build(minify, parse).error) && reportTemplate == null
      ensures old(reportTemplate) == null && Build(minify, parse).Success? ==>
        r.Success? && fresh(r.value) && r.value.parsed == Build(minify, parse).value &&
        reportTemplate == r.value
    {
      if reportTemplate == null {
        var built := BuildTemplate();
        if built.Failure? {
          return Failure(built.error);
        }
        reportTemplate := new Template(built.value);
      }
      r := Success(reportTemplate);
    }
  }
}
