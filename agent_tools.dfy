/**
 * The tools of the agent system (`ai_agent_system.py`): the tool record and the
 * two tools that compute something, `analyze_spending` and `generate_report`.
 */
module AgentTools {
  import opened Wrappers
  import opened Dicts
  import opened Text
  import opened JsonData
  import opened Spending

  /** A tool as the agents see it: its name, its description and its parameter description. */
  datatype Tool = Tool(name: string, description: string, parameters: Json)

  /** `to_dict()`: the tool's spec as shown to the LLM. */
  function ToDict(t: Tool): (j: Json)
    ensures j.JObject? && Keys(j.fields) == ["name", "description", "parameters"]
    ensures Get(j.fields, "name") == Some(JString(t.name))
    ensures Get(j.fields, "description") == Some(JString(t.description))
    ensures Get(j.fields, "parameters") == Some(t.parameters)
  {
    var fields := [("name", JString(t.name)), ("description", JString(t.description)), ("parameters", t.parameters)];
    assert Keys(fields) == ["name", "description", "parameters"];
    GetFirst(fields, "description", 1);
    GetFirst(fields, "parameters", 2);
    JObject(fields)
  }

  /** What `analyze_spending` returns. */
  datatype SpendingSummary = SpendingSummary(
    totalAmount: int,
    categories: seq<(string, int)>,
    transactionCount: nat,
    topCategory: Option<string>)

  /**
   * `AnalyzeSpendingTool.execute`: the total of all amounts, the per-category totals in order of first
   * appearance, the count, and the first category with the largest total (none without transactions).
   * `analysisType` is only reported in the log line.
   */
  method AnalyzeSpending(transactions: seq<Spend>, analysisType: string) returns (r: SpendingSummary)
    ensures r.totalAmount == SumAmounts(transactions)
    ensures r.categories == Totals(transactions)
    ensures r.transactionCount == |transactions|
    ensures r.topCategory.None? <==> transactions == []
    ensures r.topCategory.Some? ==> |r.categories| > 0 && r.topCategory.value == r.categories[ArgMax(r.categories)].0
  {
    var total := 0;
    var i := 0;
    while i < |transactions|
      invariant i <= |transactions|
      invariant total == SumAmounts(transactions[..i])
    {
      assert transactions[..i + 1][..i] == transactions[..i];
      total := total + transactions[i].amount;
      i := i + 1;
    }
    assert transactions[..i] == transactions;
    var categories: seq<(string, int)> := [];
    i := 0;
    while i < |transactions|
      invariant i <= |transactions|
      invariant categories == Totals(transactions[..i])
    {
      assert transactions[..i + 1][..i] == transactions[..i];
      assert Totals(transactions[..i + 1]) == Tally(categories, transactions[i]);
      categories := Tally(categories, transactions[i]);
      i := i + 1;
    }
    assert transactions[..i] == transactions;
    TotalsEmpty(transactions);
    var top := if |categories| > 0 then Some(categories[ArgMax(categories)].0) else None;
    r := SpendingSummary(total, categories, |transactions|, top);
  }

  /**
   * The summary is consistent: the category totals add up to the total, and the top category occurs,
   * has the largest total, and is the earliest-appearing one among equals.
   */
  lemma SpendingSummaryFacts(s: seq<Spend>)
    requires s != []
    ensures SumValues(Totals(s)) == SumAmounts(s)
    ensures var d := Totals(s);
            |d| > 0 && Appears(s, d[ArgMax(d)].0)
            && (forall c :: Appears(s, c) ==> CategorySum(s, c) <= CategorySum(s, d[ArgMax(d)].0))
            && (forall c :: Appears(s, c) && CategorySum(s, c) == CategorySum(s, d[ArgMax(d)].0) ==>
                  FirstIndex(s, d[ArgMax(d)].0) <= FirstIndex(s, c))
  {
    TotalsSum(s);
    var d := Totals(s);
    TotalsDistinct(s);
    TotalsKeys(s, s[0].category);
    var m := ArgMax(d);
    var top := d[m].0;
    assert d[m] in d;
    GetMember(d, d[m]);
    TotalsGet(s, top);
    forall c | Appears(s, c)
      ensures CategorySum(s, c) <= CategorySum(s, top)
      ensures CategorySum(s, c) == CategorySum(s, top) ==> FirstIndex(s, top) <= FirstIndex(s, c)
    {
      TotalsGet(s, c);
      GetFound(d, c);
      var e := (c, CategorySum(s, c));
      assert (c, Get(d, c).value) in d;
      var k :| 0 <= k < |d| && d[k] == e;
      if k < m {
        assert d[k].1 < d[m].1;
      } else if m < k {
        TotalsOrder(s, m, k);
      }
    }
  }

  /** `generate_report`'s input: the three keys it reads, each possibly absent. */
  datatype ReportInput = ReportInput(totalAmount: Option<int>, transactionCount: Option<int>, categories: Option<seq<(string, int)>>)

  /** What `generate_report` returns. */
  datatype Report = Report(format: string, content: string, size: nat)

  /** One `<li>` per category, in order. */
  function CategoryItems(categories: seq<(string, int)>): string
  {
    if categories == [] then ""
    else "<li>" + categories[0].0 + ": " + Grouped(categories[0].1) + "원</li>" + CategoryItems(categories[1..])
  }

  /** The report's total line. */
  function TotalLine(total: int): string
  {
    "<p>총 소비액: " + Grouped(total) + "원</p>"
  }

  /** Everything of the page before the total line. */
  const ReportHead: string :=
    "\n        <!DOCTYPE html>\n        <html>\n        <head><title>소비 분석 리포트</title></head>\n"
    + "        <body>\n            <h1>💰 소비 분석 리포트</h1>\n            "

  /** The page after the total line. */
  function ReportTail(input: ReportInput): string
  {
    "\n            <p>거래 건수: " + IntToString(OrElse(input.transactionCount, 0)) + "건</p>\n"
    + "            <h2>카테고리별 소비</h2>\n            <ul>\n                "
    + CategoryItems(OrElse(input.categories, []))
    + "\n            </ul>\n        </body>\n        </html>\n        "
  }

  /** `GenerateReportTool.execute`: the HTML page (0 and no categories for absent keys), the requested format label and the page's length. */
  function GenerateReport(input: ReportInput, format: string): (r: Report)
    ensures r.format == format
    ensures r.size == |r.content|
    ensures OccursAt(r.content, TotalLine(OrElse(input.totalAmount, 0)), |ReportHead|)
  {
    var line := TotalLine(OrElse(input.totalAmount, 0));
    var html := ReportHead + line + ReportTail(input);
    OccursInMiddle(ReportHead, line, ReportTail(input));
    Report(format, html, |html|)
  }

  /** The format only labels the report: the page is HTML whatever format is asked for. */
  lemma ReportIgnoresFormat(input: ReportInput, f1: string, f2: string)
    ensures GenerateReport(input, f1).content == GenerateReport(input, f2).content
  {
  }
}
