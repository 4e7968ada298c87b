/**
 * Markdown reports (module/utils/reports.py).
 *
 * `generate_reports` turns the title-to-output map of one environment into a
 * list of report records and hands them to `generate_report`, which builds a
 * Markdown document: a header with the environment name and the time, a line
 * with the exit code, and one level-2 section per report whose output is not
 * empty. The document is a sequence of elements plus the path it is saved to;
 * rendering and writing the file belong to the Markdown library.
 */
module Reports {
  import opened Json

  /** `report_builder`'s record: a dict with a "title" and an "output". */
  datatype Report = Report(title: string, output: string)

  datatype Element =
    | Header(text: string, level: nat)
    | Text(text: string)
    | Code(text: string)

  /** A Markdown document and the file it is saved to. */
  datatype Document = Document(path: string, elements: seq<Element>)

  /** `report_builder(title, body)`. */
  function ReportBuilder(title: string, body: string): Report
  {
    Report(title, body)
  }

  /** The records `generate_reports` builds from the map's items. */
  function Records(items: seq<(string, string)>): seq<Report>
  {
    seq(|items|, i requires 0 <= i < |items| => ReportBuilder(items[i].0, items[i].1))
  }

  /** The reports whose output is non-empty (truthy), in their order. */
  function WithOutput(reports: seq<Report>): (r: seq<Report>)
    ensures |r| <= |reports|
    ensures forall x :: x in r <==> x in reports && x.output != ""
    decreases |reports|
  {
    if |reports| == 0 then []
    else
      var rest := WithOutput(reports[1..]);
      assert forall x :: x in reports <==> x == reports[0] || x in reports[1..];
      if reports[0].output != "" then [reports[0]] + rest else rest
  }

  /** What the loop of `generate_report` adds for one report. */
  function Section(report: Report): seq<Element>
  {
    if report.output != "" then [Header(report.title, 2), Code(report.output)] else []
  }

  /** What the loop of `generate_report` adds for a list of reports. */
  function Sections(reports: seq<Report>): seq<Element>
    decreases |reports|
  {
    if |reports| == 0 then [] else Section(reports[0]) + Sections(reports[1..])
  }

  /** The header and the exit-code line every document starts with. */
  function Preamble(venvName: string, generatedAt: string, exitcode: int): seq<Element>
  {
    [Header(venvName + " " + generatedAt, 1), Text("Process exited with code " + IntToString(exitcode))]
  }

  /** The document `generate_report` saves. */
  function ReportDocument(reportsPath: string, venvName: string, reports: seq<Report>,
                          exitcode: int, generatedAt: string): Document
  {
    Document(reportsPath + "/" + venvName + ".md", Preamble(venvName, generatedAt, exitcode) + Sections(reports))
  }

  /** The document `generate_reports` saves: one directory deeper than the path it is given. */
  function ReportsDocument(reportsPath: string, venvName: string, items: seq<(string, string)>,
                           exitcode: int, generatedAt: string): Document
  {
    ReportDocument(reportsPath + "/reports", venvName, Records(items), exitcode, generatedAt)
  }

  /** Processing one more report appends its section. */
  lemma {:induction false} SectionsAppend(reports: seq<Report>, r: Report)
    ensures Sections(reports + [r]) == Sections(reports) + Section(r)
    decreases |reports|
  {
    if |reports| > 0 {
      assert (reports + [r])[1..] == reports[1..] + [r];
      SectionsAppend(reports[1..], r);
    }
  }

  /** `elements` holds a level-2 header and a code block for each report, in order. */
  predicate Laid(elements: seq<Element>, reports: seq<Report>)
  {
    |elements| == 2 * |reports| &&
    forall k :: 0 <= k < |reports| ==>
      elements[2 * k] == Header(reports[k].title, 2) && elements[2 * k + 1] == Code(reports[k].output)
  }

  lemma {:induction false} LaidCons(r: Report, elements: seq<Element>, reports: seq<Report>)
    requires Laid(elements, reports)
    ensures Laid([Header(r.title, 2), Code(r.output)] + elements, [r] + reports)
  {
    var e, rs := [Header(r.title, 2), Code(r.output)] + elements, [r] + reports;
    forall k | 1 <= k < |rs|
      ensures e[2 * k] == Header(rs[k].title, 2) && e[2 * k + 1] == Code(rs[k].output)
    {
      assert rs[k] == reports[k - 1];
      assert e[2 * k] == elements[2 * (k - 1)];
      assert e[2 * k + 1] == elements[2 * (k - 1) + 1];
    }
  }

  /** The sections are a header and a code block per report with output, in
      order, and nothing for a report with empty output. */
  lemma {:induction false} SectionsLayout(reports: seq<Report>)
    ensures Laid(Sections(reports), WithOutput(reports))
    decreases |reports|
  {
    if |reports| > 0 {
      var rest := reports[1..];
      SectionsLayout(rest);
      assert Sections(reports) == Section(reports[0]) + Sections(rest);
      if reports[0].output != "" {
        assert WithOutput(reports) == [reports[0]] + WithOutput(rest);
        LaidCons(reports[0], Sections(rest), WithOutput(rest));
      } else {
        assert WithOutput(reports) == WithOutput(rest);
        assert Sections(reports) == Sections(rest);
      }
    }
  }

  /** The loop of `generate_reports`: one record per item of the map, in the
      map's iteration order, titled by the key and holding the value. */
  method BuildRecords(items: seq<(string, string)>) returns (all: seq<Report>)
    ensures |all| == |items|
    ensures forall i :: 0 <= i < |items| ==> all[i].title == items[i].0 && all[i].output == items[i].1
    ensures all == Records(items)
  {
    all := [];
    for i := 0 to |items|
      invariant all == Records(items[..i])
    {
      assert Records(items[..i + 1]) == Records(items[..i]) + [ReportBuilder(items[i].0, items[i].1)];
      all := all + [ReportBuilder(items[i].0, items[i].1)];
    }
    assert items[..|items|] == items;
  }

  /** The document of `generate_report`: the header, the exit-code line, then
      a level-2 header and a code block for each report with output, in the
      given order, saved as `<reports_path>/<venv_name>.md`. */
  lemma {:induction false} ReportDocumentLayout(reportsPath: string, venvName: string, reports: seq<Report>,
                             exitcode: int, generatedAt: string)
    ensures var doc := ReportDocument(reportsPath, venvName, reports, exitcode, generatedAt);
      doc.path == reportsPath + "/" + venvName + ".md" &&
      |doc.elements| == 2 + 2 * |WithOutput(reports)| &&
      doc.elements[0] == Header(venvName + " " + generatedAt, 1) &&
      doc.elements[1] == Text("Process exited with code " + IntToString(exitcode)) &&
      forall k :: 0 <= k < |WithOutput(reports)| ==>
        doc.elements[2 + 2 * k] == Header(WithOutput(reports)[k].title, 2) &&
        doc.elements[3 + 2 * k] == Code(WithOutput(reports)[k].output)
  {
    var pre := Preamble(venvName, generatedAt, exitcode);
    var sections := Sections(reports);
    var ws := WithOutput(reports);
    SectionsLayout(reports);
    var elements := pre + sections;
    forall k | 0 <= k < |ws|
      ensures elements[2 + 2 * k] == Header(ws[k].title, 2)
      ensures elements[3 + 2 * k] == Code(ws[k].output)
    {
      assert elements[2 + 2 * k] == sections[2 * k];
      assert elements[3 + 2 * k] == sections[2 * k + 1];
    }
  }

  /** `generate_report`: the loop appends a header and a code block per report
      with output to the preamble; the result is the document above. */
  method GenerateReport(reportsPath: string, venvName: string, reports: seq<Report>,
                        exitcode: int, generatedAt: string) returns (doc: Document)
    ensures doc == ReportDocument(reportsPath, venvName, reports, exitcode, generatedAt)
  {
    var elements := [Header(venvName + " " + generatedAt, 1)];
    elements := elements + [Text("Process exited with code " + IntToString(exitcode))];
    for i := 0 to |reports|
      invariant elements == Preamble(venvName, generatedAt, exitcode) + Sections(reports[..i])
    {
      SectionsAppend(reports[..i], reports[i]);
      assert reports[..i + 1] == reports[..i] + [reports[i]];
      if reports[i].output != "" {
        elements := elements + [Header(reports[i].title, 2)];
        elements := elements + [Code(reports[i].output)];
      }
    }
    assert reports[..|reports|] == reports;
    doc := Document(reportsPath + "/" + venvName + ".md", elements);
  }

  /** `generate_reports`: builds the records and the document, which lands in
      `<reports_path>/reports/<venv_name>.md`. */
  method GenerateReports(reportsPath: string, venvName: string, items: seq<(string, string)>,
                         exitcode: int, generatedAt: string) returns (doc: Document)
    ensures doc.path == reportsPath + "/reports/" + venvName + ".md"
    ensures doc == ReportsDocument(reportsPath, venvName, items, exitcode, generatedAt)
  {
    var all := BuildRecords(items);
    doc := GenerateReport(reportsPath + "/reports", venvName, all, exitcode, generatedAt);
  }

  /** The number of map items whose output is non-empty. */
  function CountWithOutput(items: seq<(string, string)>): nat
  {
    if |items| == 0 then 0
    else (if items[0].1 != "" then 1 else 0) + CountWithOutput(items[1..])
  }

  /** The records of a map's tail are the tail of its records. */
  lemma {:induction false} RecordsTail(items: seq<(string, string)>)
    requires |items| > 0
    ensures Records(items) == [ReportBuilder(items[0].0, items[0].1)] + Records(items[1..])
  {
  }

  /** One section per map item with non-empty output. */
  lemma {:induction false} WithOutputCount(items: seq<(string, string)>)
    ensures |WithOutput(Records(items))| == CountWithOutput(items)
    decreases |items|
  {
    if |items| > 0 {
      RecordsTail(items);
      assert Records(items)[1..] == Records(items[1..]);
      WithOutputCount(items[1..]);
    }
  }

  /** The sections of a document come from the map's titles, in map order:
      each section title is the key of an item with non-empty output, and
      the number of sections is the number of such items. */
  lemma {:induction false} SectionTitlesFollowMap(items: seq<(string, string)>)
    ensures |WithOutput(Records(items))| == CountWithOutput(items) <= |items|
    ensures forall r :: r in WithOutput(Records(items)) <==>
      r.output != "" && exists i :: 0 <= i < |items| && items[i] == (r.title, r.output)
  {
    WithOutputCount(items);
    var recs := Records(items);
    forall r ensures r in recs <==> exists i :: 0 <= i < |items| && items[i] == (r.title, r.output) {
      if r in recs {
        var i :| 0 <= i < |recs| && recs[i] == r;
        assert items[i] == (r.title, r.output);
      }
      if exists i :: 0 <= i < |items| && items[i] == (r.title, r.output) {
        var i :| 0 <= i < |items| && items[i] == (r.title, r.output);
        assert recs[i] == r;
      }
    }
  }
}
