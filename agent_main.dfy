/**
 * The rule-based spending analysis of the agent server (`main.py`): category
 * totals, the overall total, the three largest categories, a nickname and the
 * insight and advice lines, plus the LLM endpoint that is not implemented.
 */
module AgentServer {
  import opened Wrappers
  import opened Dicts
  import opened Text
  import opened Spending
  import opened Ranking

  datatype Transaction = Transaction(id: string, date: string, amount: int, category: string, merchant: string, description: string)

  datatype AnalysisRequest = AnalysisRequest(userId: string, userName: string, transactions: seq<Transaction>, month: string)

  /** One entry of `topCategories`; its `percentage` is not modelled. */
  datatype TopCategory = TopCategory(category: string, amount: int)

  datatype AnalysisResult = AnalysisResult(
    userId: string,
    month: string,
    nickname: string,
    topCategories: seq<TopCategory>,
    insights: seq<string>,
    advice: seq<string>,
    totalAmount: int,
    generatedAt: string)

  /** An HTTP error answer. */
  datatype HttpError = HttpError(status: int, detail: string)

  const CafeCategory: string := "카페"
  const OnlineShoppingCategory: string := "온라인쇼핑"
  const SubscriptionCategory: string := "구독"

  const CafeExplorer: string := "카페 탐험가 ☕"
  const DigitalShopper: string := "디지털 쇼퍼 🛒"
  const SubscriptionManiac: string := "구독 마니아 📱"
  const BalancedSpender: string := "균형잡힌 소비자 ⚖️"

  const NoTransactions: string := "거래 내역이 없습니다"

  /** The three fixed advice lines. */
  const Advice: seq<string> := [
    "다음 달도 현재 패턴을 유지하면 좋을 것 같아요",
    "예산 관리를 위해 고정비를 먼저 확인해보세요",
    "소비 카테고리가 분산되어 있어 균형잡힌 소비 패턴이에요"
  ]

  /** The category and amount of each transaction, in order. */
  function Spends(txs: seq<Transaction>): (s: seq<Spend>)
    ensures |s| == |txs|
    ensures forall i :: 0 <= i < |txs| ==> s[i] == Spend(txs[i].category, txs[i].amount)
  {
    seq(|txs|, i requires 0 <= i < |txs| => Spend(txs[i].category, txs[i].amount))
  }

  /** `sorted(category_sum.items(), key=amount, reverse=True)[:3]`. */
  function Top3(sums: seq<(string, int)>): (top: seq<(string, int)>)
    ensures |top| == if |sums| < 3 then |sums| else 3
  {
    var sorted := SortDesc(sums);
    SortDescPerm(sums);
    assert |sorted| == |multiset(sorted)| == |multiset(sums)| == |sums|;
    if |sorted| < 3 then sorted else sorted[..3]
  }

  function ToTopCategories(top: seq<(string, int)>): (r: seq<TopCategory>)
    ensures |r| == |top|
    ensures forall i :: 0 <= i < |top| ==> r[i] == TopCategory(top[i].0, top[i].1)
  {
    seq(|top|, i requires 0 <= i < |top| => TopCategory(top[i].0, top[i].1))
  }

  /** `any(cat["category"] == c for cat in top)`. */
  function AnyCategory(top: seq<TopCategory>, c: string): (b: bool)
    ensures b <==> exists i :: 0 <= i < |top| && top[i].category == c
  {
    if top == [] then false
    else top[0].category == c || (assert forall i :: 0 < i < |top| ==> top[i] == top[1..][i - 1]; AnyCategory(top[1..], c))
  }

  /** The nickname rule, tried in order: a cafe first, online shopping anywhere, a subscription anywhere, else balanced. */
  function Nickname(top: seq<TopCategory>): (r: string)
    ensures r == CafeExplorer <==> |top| > 0 && top[0].category == CafeCategory
    ensures r == DigitalShopper <==>
              !(|top| > 0 && top[0].category == CafeCategory)
              && exists i :: 0 <= i < |top| && top[i].category == OnlineShoppingCategory
    ensures r == SubscriptionManiac <==>
              !(|top| > 0 && top[0].category == CafeCategory)
              && (forall i :: 0 <= i < |top| ==> top[i].category != OnlineShoppingCategory)
              && exists i :: 0 <= i < |top| && top[i].category == SubscriptionCategory
    ensures r in {CafeExplorer, DigitalShopper, SubscriptionManiac, BalancedSpender}
  {
    if |top| > 0 && top[0].category == CafeCategory then CafeExplorer
    else if AnyCategory(top, OnlineShoppingCategory) then DigitalShopper
    else if AnyCategory(top, SubscriptionCategory) then SubscriptionManiac
    else BalancedSpender
  }

  /** The fixed text around the transaction count, the largest category and the grouped total. */
  const CountHead: string := "이번 달 총 "
  const CountTail: string := "건의 거래가 발생했어요"
  const TopHead: string := "가장 많이 소비한 카테고리는 '"
  const TopTail: string := "'입니다"
  const TotalHead: string := "총 소비액은 "
  const TotalTail: string := "원이에요"

  /** The three insight lines: transaction count, largest category, grouped total. */
  function Insights(count: nat, top: seq<TopCategory>, total: int): (r: seq<string>)
    ensures |r| == 3
    ensures r[0] == CountHead + NatToString(count) + CountTail
    ensures top != [] ==> r[1] == TopHead + top[0].category + TopTail
    ensures top == [] ==> r[1] == NoTransactions
    ensures r[2] == TotalHead + Grouped(total) + TotalTail
  {
    [ CountHead + NatToString(count) + CountTail,
      if top != [] then TopHead + top[0].category + TopTail else NoTransactions,
      TotalHead + Grouped(total) + TotalTail ]
  }

  /** Everything `analyze_simple` builds after the aggregation loop. */
  function Summarize(request: AnalysisRequest, categorySum: seq<(string, int)>, generatedAt: string): AnalysisResult
  {
    var total := SumValues(categorySum);
    var top := ToTopCategories(Top3(categorySum));
    AnalysisResult(
      userId := request.userId,
      month := request.month,
      nickname := Nickname(top),
      topCategories := top,
      insights := Insights(|request.transactions|, top, total),
      advice := Advice,
      totalAmount := total,
      generatedAt := generatedAt)
  }

  /** The analysis of `request`; `generatedAt` is the ISO text of the clock reading. */
  function Analysis(request: AnalysisRequest, generatedAt: string): AnalysisResult
  {
    Summarize(request, Totals(Spends(request.transactions)), generatedAt)
  }

  /** `analyze_simple`'s aggregation loop: `category_sum[c] = category_sum.get(c, 0) + amount` per transaction. */
  method SumByCategory(txs: seq<Transaction>) returns (categorySum: seq<(string, int)>)
    ensures categorySum == Totals(Spends(txs))
  {
    ghost var spends := Spends(txs);
    categorySum := [];
    var i := 0;
    while i < |txs|
      invariant i <= |txs|
      invariant categorySum == Totals(spends[..i])
    {
      assert spends[..i + 1][..i] == spends[..i];
      var x := Spend(txs[i].category, txs[i].amount);
      assert spends[i] == x;
      assert Totals(spends[..i + 1]) == Tally(categorySum, x);
      categorySum := Tally(categorySum, x);
      i := i + 1;
    }
    assert spends[..i] == spends;
  }

  /** `analyze_simple`: the aggregation loop over the transactions, then the summary. */
  method AnalyzeSimple(request: AnalysisRequest, generatedAt: string) returns (result: AnalysisResult)
    ensures result == Analysis(request, generatedAt)
  {
    var categorySum := SumByCategory(request.transactions);
    result := Summarize(request, categorySum, generatedAt);
  }

  /**
   * The result echoes the request and keeps the fixed advice; the total is the sum of all amounts; the
   * insights give the number of transactions, name the first (largest) top category, and show the total grouped.
   */
  lemma AnalysisShape(request: AnalysisRequest, generatedAt: string)
    ensures var r := Analysis(request, generatedAt);
            var total := SumAmounts(Spends(request.transactions));
            r.userId == request.userId && r.month == request.month && r.generatedAt == generatedAt
            && r.advice == Advice && r.totalAmount == total
            && |r.insights| == 3
            && r.insights[0] == CountHead + NatToString(|request.transactions|) + CountTail
            && (r.topCategories != [] ==> r.insights[1] == TopHead + r.topCategories[0].category + TopTail)
            && (r.topCategories == [] ==> r.insights[1] == NoTransactions)
            && r.insights[2] == TotalHead + Grouped(total) + TotalTail
  {
    TotalsSum(Spends(request.transactions));
  }

  /** The three entries are the first of the sorted totals. */
  lemma Top3Prefix(d: seq<(string, int)>)
    ensures |SortDesc(d)| == |d|
    ensures Top3(d) == SortDesc(d)[..|Top3(d)|]
  {
    SortDescPerm(d);
    assert |multiset(SortDesc(d))| == |multiset(d)|;
  }

  /** The top categories are non-increasing in amount and distinct. */
  lemma TopCategoriesOrdered(request: AnalysisRequest, generatedAt: string)
    ensures var top := Analysis(request, generatedAt).topCategories;
            |top| <= 3
            && forall i, j :: 0 <= i < j < |top| ==> top[i].amount >= top[j].amount && top[i].category != top[j].category
  {
    var d := Totals(Spends(request.transactions));
    var top := Analysis(request, generatedAt).topCategories;
    assert top == ToTopCategories(Top3(d));
    Top3Prefix(d);
    TotalsDistinct(Spends(request.transactions));
    SortDescSorted(d);
    SortDescDistinct(d);
  }

  /** Each top category occurs in the transactions and carries its category's total. */
  lemma TopCategoriesTotals(request: AnalysisRequest, generatedAt: string)
    ensures var top := Analysis(request, generatedAt).topCategories;
            var s := Spends(request.transactions);
            forall i :: 0 <= i < |top| ==> Appears(s, top[i].category) && top[i].amount == CategorySum(s, top[i].category)
  {
    var s := Spends(request.transactions);
    var d := Totals(s);
    var top := Analysis(request, generatedAt).topCategories;
    assert top == ToTopCategories(Top3(d));
    Top3Prefix(d);
    TotalsDistinct(s);
    SortDescPerm(d);
    forall i | 0 <= i < |top|
      ensures Appears(s, top[i].category) && top[i].amount == CategorySum(s, top[i].category)
    {
      var e := SortDesc(d)[i];
      assert top[i] == TopCategory(e.0, e.1);
      assert e in multiset(d);
      GetMember(d, e);
      TotalsGet(s, e.0);
    }
  }

  /** A category left out of the top is there only because three categories spend at least as much. */
  lemma TopCategoriesLargest(request: AnalysisRequest, generatedAt: string, c: string)
    requires Appears(Spends(request.transactions), c)
    requires forall i :: 0 <= i < |Analysis(request, generatedAt).topCategories| ==>
               Analysis(request, generatedAt).topCategories[i].category != c
    ensures var top := Analysis(request, generatedAt).topCategories;
            |top| == 3 && forall i :: 0 <= i < |top| ==> CategorySum(Spends(request.transactions), c) <= top[i].amount
  {
    var s := Spends(request.transactions);
    var d := Totals(s);
    var sorted := SortDesc(d);
    var top := Analysis(request, generatedAt).topCategories;
    assert top == ToTopCategories(Top3(d));
    Top3Prefix(d);
    SortDescSorted(d);
    SortDescPerm(d);
    TotalsGet(s, c);
    GetFound(d, c);
    var e := (c, CategorySum(s, c));
    assert e in multiset(sorted);
    var k :| 0 <= k < |sorted| && sorted[k] == e;
    assert forall i :: 0 <= i < |top| ==> top[i].category == sorted[i].0;
    assert k >= |top|;
  }

  /** Top categories with equal amounts come in the order their categories first appear in the transactions. */
  lemma TopCategoriesTies(request: AnalysisRequest, generatedAt: string, i: nat, j: nat)
    requires var top := Analysis(request, generatedAt).topCategories;
             i < j < |top| && top[i].amount == top[j].amount
    ensures var top := Analysis(request, generatedAt).topCategories;
            var s := Spends(request.transactions);
            Appears(s, top[i].category) && Appears(s, top[j].category)
            && FirstIndex(s, top[i].category) < FirstIndex(s, top[j].category)
  {
    var s := Spends(request.transactions);
    var d := Totals(s);
    var sorted := SortDesc(d);
    var top := Analysis(request, generatedAt).topCategories;
    assert top == ToTopCategories(Top3(d));
    Top3Prefix(d);
    SortDescKeepsTies(d, i, j);
    var p, q :| 0 <= p < q < |d| && d[p] == sorted[i] && d[q] == sorted[j];
    TotalsOrder(s, p, q);
  }

  /** With no transactions: no top categories, total 0, the balanced nickname and the "no transactions" insight. */
  lemma EmptyAnalysis(request: AnalysisRequest, generatedAt: string)
    requires request.transactions == []
    ensures var r := Analysis(request, generatedAt);
            r.topCategories == [] && r.totalAmount == 0 && r.nickname == BalancedSpender && r.insights[1] == NoTransactions
  {
    assert Spends(request.transactions) == [];
  }

  /**
   * The `/analyze` endpoint answers with `analyze_simple`'s result. Its 500 branch is taken only when a
   * percentage's `amt / total` is too large for a float, which the model does not follow (percentages are floats).
   */
  method Analyze(request: AnalysisRequest, generatedAt: string) returns (r: Result<AnalysisResult, HttpError>)
    ensures r.Ok? && r.value == Analysis(request, generatedAt)
  {
    var result := AnalyzeSimple(request, generatedAt);
    r := Ok(result);
  }

  /** `analyze_with_llm`: always answers 501. */
  function AnalyzeWithLlm(request: AnalysisRequest): (r: Result<AnalysisResult, HttpError>)
    ensures r.Err? && r.error.status == 501
    ensures r.error.detail == "LLM analysis not implemented yet. Use /analyze endpoint."
  {
    Err(HttpError(501, "LLM analysis not implemented yet. Use /analyze endpoint."))
  }
}
