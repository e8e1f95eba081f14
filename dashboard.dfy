/** The dashboard: the current month's revenue card, the four stats, the twelve-month
    revenue/profit chart of the current year and the per-state client map. Dates are
    read as (year, month) pairs; the current date is a parameter. */
module Dashboard {
  import opened Wrappers
  import opened Text
  import opened Lists
  import opened Tally

  /** A calendar month: `month` is 0 for January up to 11 for December, as `getMonth` gives. */
  datatype YearMonth = YearMonth(year: int, month: int)

  /** A row of the ledger: `amount` is `None` when it does not read as a number, `date`
      is `None` when it does not read as a date. */
  datatype FinanceRow = FinanceRow(amount: Option<int>, kind: string, date: Option<YearMonth>)

  predicate InMonth(r: FinanceRow, year: int, month: int)
  {
    r.date.Some? && r.date.value.month == month && r.date.value.year == year
  }

  // ---- the revenue card ----

  /** `faturamentoMes` after the rows: the income of the month; one income row that is not
      a number makes the total not a number (`None`). */
  function CardRevenue(rows: seq<FinanceRow>, year: int, month: int): Option<int>
  {
    if rows == [] then Some(0)
    else
      var prev := CardRevenue(rows[..|rows| - 1], year, month);
      var r := rows[|rows| - 1];
      if r.kind == "receita" && InMonth(r, year, month) then
        (if prev.Some? && r.amount.Some? then Some(prev.value + r.amount.value) else None)
      else prev
  }

  /** The card's loop. */
  method MonthlyRevenue(rows: seq<FinanceRow>, year: int, month: int) returns (total: Option<int>)
    ensures total == CardRevenue(rows, year, month)
  {
    total := Some(0);
    var i := 0;
    while i < |rows|
      invariant 0 <= i <= |rows|
      invariant total == CardRevenue(rows[..i], year, month)
    {
      var r := rows[i];
      assert rows[..i + 1][..i] == rows[..i];
      if r.kind == "receita" && InMonth(r, year, month) {
        total := if total.Some? && r.amount.Some? then Some(total.value + r.amount.value) else None;
      }
      i := i + 1;
    }
    assert rows[..i] == rows;
  }

  // ---- the chart ----

  const MonthLabels: seq<string> := ["Jan", "Fev", "Mar", "Abr", "Mai", "Jun", "Jul", "Ago", "Set", "Out", "Nov", "Dez"]

  datatype ChartEntry = ChartEntry(name: string, receita: int, lucro: int)

  /** `Number(t.amount) || 0`. */
  function ValueOrZero(r: FinanceRow): int
  {
    if r.amount.Some? then r.amount.value else 0
  }

  function IncomeIn(year: int, month: int): FinanceRow -> bool
  {
    (r: FinanceRow) => InMonth(r, year, month) && r.kind == "receita"
  }

  function ExpenseIn(year: int, month: int): FinanceRow -> bool
  {
    (r: FinanceRow) => InMonth(r, year, month) && r.kind == "despesa"
  }

  /** A month's revenue: the sum of its income rows. */
  function MonthReceita(rows: seq<FinanceRow>, year: int, month: int): int
  {
    SumBy(Filter(rows, IncomeIn(year, month)), ValueOrZero)
  }

  /** A month's expenses: the sum of its expense rows. */
  function MonthDespesa(rows: seq<FinanceRow>, year: int, month: int): int
  {
    SumBy(Filter(rows, ExpenseIn(year, month)), ValueOrZero)
  }

  /** A month's entry: its label, its revenue, and its profit (revenue minus expenses). */
  function MonthChartEntry(rows: seq<FinanceRow>, year: int, m: int): ChartEntry
    requires 0 <= m < 12
  {
    var receita := MonthReceita(rows, year, m);
    ChartEntry(MonthLabels[m], receita, receita - MonthDespesa(rows, year, m))
  }

  /** The chart of a year: one entry per month, January first. */
  function Chart(rows: seq<FinanceRow>, year: int): (c: seq<ChartEntry>)
    ensures |c| == 12
    ensures forall m :: 0 <= m < 12 ==> c[m] == MonthChartEntry(rows, year, m)
  {
    seq(12, m requires 0 <= m < 12 => MonthChartEntry(rows, year, m))
  }

  /** One month of the chart: the inner `forEach` of `dadosGrafico`. */
  method MonthEntry(rows: seq<FinanceRow>, year: int, month: int) returns (receita: int, lucro: int)
    ensures receita == MonthReceita(rows, year, month)
    ensures lucro == MonthReceita(rows, year, month) - MonthDespesa(rows, year, month)
  {
    receita, lucro := 0, 0;
    var i := 0;
    while i < |rows|
      invariant 0 <= i <= |rows|
      invariant receita == MonthReceita(rows[..i], year, month)
      invariant lucro == MonthReceita(rows[..i], year, month) - MonthDespesa(rows[..i], year, month)
    {
      var t := rows[i];
      assert rows[..i + 1] == rows[..i] + [t];
      SumByFilterSnoc(rows[..i], t, IncomeIn(year, month), ValueOrZero);
      SumByFilterSnoc(rows[..i], t, ExpenseIn(year, month), ValueOrZero);
      if InMonth(t, year, month) {
        var valor := ValueOrZero(t);
        if t.kind == "receita" {
          receita := receita + valor;
          lucro := lucro + valor;
        } else if t.kind == "despesa" {
          lucro := lucro - valor;
        }
      }
      i := i + 1;
    }
    assert rows[..i] == rows;
  }

  /** `dadosGrafico`: the twelve months in calendar order. */
  method ChartSeries(rows: seq<FinanceRow>, year: int) returns (chart: seq<ChartEntry>)
    ensures chart == Chart(rows, year)
  {
    chart := [];
    var m := 0;
    while m < 12
      invariant 0 <= m <= 12
      invariant |chart| == m
      invariant forall k :: 0 <= k < m ==> chart[k] == MonthChartEntry(rows, year, k)
    {
      var receita, lucro := MonthEntry(rows, year, m);
      var entry := ChartEntry(MonthLabels[m], receita, lucro);
      assert entry == MonthChartEntry(rows, year, m);
      chart := chart + [entry];
      m := m + 1;
    }
    var c := Chart(rows, year);
    assert forall k :: 0 <= k < 12 ==> chart[k] == c[k];
  }

  /** A row of another type, or of another year, moves neither series in any month. */
  lemma OtherRowsIgnored(rows: seq<FinanceRow>, r: FinanceRow, year: int)
    requires (r.kind != "receita" && r.kind != "despesa") || r.date.None? || r.date.value.year != year
    ensures Chart(rows + [r], year) == Chart(rows, year)
  {
    forall m | 0 <= m < 12
      ensures MonthChartEntry(rows + [r], year, m) == MonthChartEntry(rows, year, m)
    {
      assert !IncomeIn(year, m)(r) && !ExpenseIn(year, m)(r);
      SumByFilterSnoc(rows, r, IncomeIn(year, m), ValueOrZero);
      SumByFilterSnoc(rows, r, ExpenseIn(year, m), ValueOrZero);
    }
    assert |Chart(rows + [r], year)| == |Chart(rows, year)|;
  }

  /** A row of the year moves exactly its own month: revenue and profit up by an income
      row's value, profit down by an expense row's value. */
  lemma RowLandsInItsMonth(rows: seq<FinanceRow>, r: FinanceRow, year: int, m: int)
    requires 0 <= m < 12
    ensures var before, after := Chart(rows, year)[m], Chart(rows + [r], year)[m];
      && after.receita == before.receita + (if IncomeIn(year, m)(r) then ValueOrZero(r) else 0)
      && after.lucro == before.lucro + (if IncomeIn(year, m)(r) then ValueOrZero(r)
                                        else if ExpenseIn(year, m)(r) then -ValueOrZero(r) else 0)
  {
    SumByFilterSnoc(rows, r, IncomeIn(year, m), ValueOrZero);
    SumByFilterSnoc(rows, r, ExpenseIn(year, m), ValueOrZero);
  }

  predicate AllNumeric(rows: seq<FinanceRow>)
  {
    forall i :: 0 <= i < |rows| ==> rows[i].amount.Some?
  }

  /** One more row with a numeric amount adds it to a numeric card when it is income of the month. */
  lemma CardStep(front: seq<FinanceRow>, r: FinanceRow, year: int, month: int, total: int)
    requires CardRevenue(front, year, month) == Some(total) && r.amount.Some?
    ensures CardRevenue(front + [r], year, month)
         == Some(total + if IncomeIn(year, month)(r) then ValueOrZero(r) else 0)
  {
    var rows := front + [r];
    assert rows[..|rows| - 1] == front && rows[|rows| - 1] == r;
  }

  /** With numeric amounts, the card shows the revenue of the current month's chart entry. */
  lemma {:induction false} CardMatchesChart(rows: seq<FinanceRow>, year: int, month: int)
    requires AllNumeric(rows)
    ensures CardRevenue(rows, year, month) == Some(MonthReceita(rows, year, month))
  {
    if rows != [] {
      var front, r := rows[..|rows| - 1], rows[|rows| - 1];
      assert rows == front + [r];
      assert AllNumeric(front) by {
        assert forall i :: 0 <= i < |front| ==> front[i] == rows[i];
      }
      CardMatchesChart(front, year, month);
      CardStep(front, r, year, month, MonthReceita(front, year, month));
      SumByFilterSnoc(front, r, IncomeIn(year, month), ValueOrZero);
    }
  }

  // ---- the map ----

  /** A state code as the map keys it: trimmed, in lower case, and `br-` put in front of a
      two-letter code. */
  function NormalizeUf(s: string): (r: string)
  {
    var u := Lower(Trim(s));
    if !StartsWith(u, "br-") && |u| == 2 then "br-" + u else u
  }

  lemma LowerKeepsSpaces(s: string)
    ensures forall i :: 0 <= i < |s| ==> (IsSpace(Lower(s)[i]) <==> IsSpace(s[i]))
  {
  }

  /** A lower-case code without edge spaces that is not a bare two-letter code is kept as it is. */
  lemma NormalizeUfKeeps(u: string)
    requires Lower(u) == u
    requires u == [] || (!IsSpace(u[0]) && !IsSpace(u[|u| - 1]))
    requires StartsWith(u, "br-") || |u| != 2
    ensures NormalizeUf(u) == u
  {
    TrimOfTrimmed(u);
    assert Lower(Trim(u)) == u;
  }

  lemma LowerPrefixed(u: string)
    ensures Lower("br-" + u) == "br-" + Lower(u)
  {
    var l, r := Lower("br-" + u), "br-" + Lower(u);
    assert |l| == |r|;
    forall i | 0 <= i < |l| ensures l[i] == r[i] {
      if i >= 3 {
        assert ("br-" + u)[i] == u[i - 3];
      }
    }
  }

  /** What the first two steps leave: a lower-case code without edge spaces. */
  lemma LowerTrimShape(s: string)
    ensures var u := Lower(Trim(s));
      Lower(u) == u && (u == [] || (!IsSpace(u[0]) && !IsSpace(u[|u| - 1])))
  {
    var t := Trim(s);
    LowerKeepsSpaces(t);
    LowerIdempotent(t);
  }

  /** A normalised code is already normalised. */
  lemma NormalizeUfIdempotent(s: string)
    ensures NormalizeUf(NormalizeUf(s)) == NormalizeUf(s)
  {
    var u := Lower(Trim(s));
    LowerTrimShape(s);
    if !StartsWith(u, "br-") && |u| == 2 {
      var r := "br-" + u;
      LowerPrefixed(u);
      assert r[..3] == "br-";
      NormalizeUfKeeps(r);
    } else {
      NormalizeUfKeeps(u);
    }
  }

  /** The codes the map counts, in client order: the clients without a state are skipped. */
  function KeptUfs(states: seq<string>): (r: seq<string>)
  {
    if states == [] then []
    else
      var s := states[|states| - 1];
      KeptUfs(states[..|states| - 1]) + (if s != "" then [NormalizeUf(s)] else [])
  }

  function HasState(): string -> bool
  {
    (s: string) => s != ""
  }

  /** One code per client with a state. */
  lemma {:induction false} KeptUfsLength(states: seq<string>)
    ensures |KeptUfs(states)| == Count(states, HasState())
  {
    if states != [] {
      var front, s := states[..|states| - 1], states[|states| - 1];
      assert states == front + [s];
      KeptUfsLength(front);
      FilterAppend(front, [s], HasState());
    }
  }

  /** The map's loop: the per-state counts, keys in first-seen order. */
  method StateCounts(states: seq<string>) returns (mapData: seq<Entry>)
    ensures mapData == Entries(KeptUfs(states))
  {
    var keys: seq<string> := [];
    var counts: map<string, nat> := map[];
    var i := 0;
    assert states[..0] == [];
    while i < |states|
      invariant 0 <= i <= |states|
      invariant keys == Keys(KeptUfs(states[..i])) && counts == Counts(KeptUfs(states[..i]))
    {
      var s := states[i];
      ghost var seen := KeptUfs(states[..i]);
      assert states[..i + 1][..i] == states[..i];
      assert states[..i + 1][i] == s;
      if s != "" {
        var uf := NormalizeUf(s);
        assert KeptUfs(states[..i + 1]) == seen + [uf];
        keys, counts := Bump(seen, keys, counts, uf);
      } else {
        assert KeptUfs(states[..i + 1]) == seen;
      }
      i := i + 1;
    }
    assert states[..i] == states;
    mapData := seq(|keys|, j requires 0 <= j < |keys| => Entry(keys[j], counts[keys[j]]));
  }

  /** The map's counts add up to the number of clients that have a state. */
  lemma StateCountsTotal(states: seq<string>)
    ensures SumCounts(Entries(KeptUfs(states))) == Count(states, HasState())
  {
    EntriesTotal(KeptUfs(states));
    KeptUfsLength(states);
  }

  // ---- the stats ----

  datatype Stats = Stats(faturamento: Option<int>, projetosAtivos: nat, totalClientes: nat, tarefasPendentes: nat)

  function IsNot(v: string): string -> bool
  {
    (s: string) => s != v
  }

  function IsValue(v: string): string -> bool
  {
    (s: string) => s == v
  }

  /** The four cards: the month's revenue, the projects not finished, the clients, the to-do items not done. */
  function StatsOf(rows: seq<FinanceRow>, clientStates: seq<string>, projectStatuses: seq<string>,
                   taskStatuses: seq<string>, today: YearMonth): (s: Stats)
    ensures s.projetosAtivos + Count(projectStatuses, IsValue("concluido")) == |projectStatuses|
    ensures s.tarefasPendentes + Count(taskStatuses, IsValue("done")) == |taskStatuses|
    ensures s.totalClientes == |clientStates|
  {
    StatsSplit(projectStatuses, taskStatuses);
    Stats(CardRevenue(rows, today.year, today.month), Count(projectStatuses, IsNot("concluido")),
      |clientStates|, Count(taskStatuses, IsNot("done")))
  }

  /** Active and finished projects make up all projects; pending and done tasks all tasks. */
  lemma StatsSplit(projectStatuses: seq<string>, taskStatuses: seq<string>)
    ensures Count(projectStatuses, IsNot("concluido")) + Count(projectStatuses, IsValue("concluido")) == |projectStatuses|
    ensures Count(taskStatuses, IsNot("done")) + Count(taskStatuses, IsValue("done")) == |taskStatuses|
  {
    CountComplement(projectStatuses, IsNot("concluido"), IsValue("concluido"));
    CountComplement(taskStatuses, IsNot("done"), IsValue("done"));
  }

  class DashboardPage {
    var stats: Stats
    var chart: seq<ChartEntry>
    var mapData: seq<Entry>

    constructor()
      ensures stats == Stats(Some(0), 0, 0, 0) && chart == [] && mapData == []
    {
      stats := Stats(Some(0), 0, 0, 0);
      chart := [];
      mapData := [];
    }

    /** `initDashboard`: when the map topology loads and a user is signed in, the stats,
        the chart and the map are filled from the user's rows; otherwise nothing changes. */
    method Init(topologyOk: bool, signedIn: bool, rows: seq<FinanceRow>, clientStates: seq<string>,
                projectStatuses: seq<string>, taskStatuses: seq<string>, today: YearMonth)
      modifies this
      ensures !(topologyOk && signedIn) ==> stats == old(stats) && chart == old(chart) && mapData == old(mapData)
      ensures topologyOk && signedIn ==>
        && stats == StatsOf(rows, clientStates, projectStatuses, taskStatuses, today)
        && chart == Chart(rows, today.year)
        && mapData == Entries(KeptUfs(clientStates))
    {
      if !topologyOk || !signedIn {
        return;
      }
      var faturamento := MonthlyRevenue(rows, today.year, today.month);
      stats := Stats(faturamento, Count(projectStatuses, IsNot("concluido")),
        |clientStates|, Count(taskStatuses, IsNot("done")));
      chart := ChartSeries(rows, today.year);
      mapData := StateCounts(clientStates);
    }
  }
}
