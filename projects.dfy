/** The projects page: the kanban board with its drag-and-drop status change and
    collapsible columns, the client/internal tabs, the status counts and progress
    figure, the overdue-then-priority ordering of the list, the client-name lookup,
    the team workload ranking and the two-step delete. "Now" is an abstract instant. */
module Projects {
  import opened Wrappers
  import opened Lists
  import opened Tally
  import opened Ranking

  /** The four kanban columns; a column's id is its status. */
  datatype Status = Pendente | Andamento | Revisao | Concluido

  /** A stored priority; `Other` is any value outside the three the form offers (or none). */
  datatype Priority = Baixa | Media | Alta | Other

  /** A project. A deadline is an instant, `None` when empty; `clientId` is `None` for an internal project. */
  datatype Project = Project(
    id: string, title: string, status: Status, priority: Priority,
    deadline: Option<int>, clientId: Option<string>)

  datatype ClientRef = ClientRef(id: string, companyName: string)

  /** `KANBAN_COLUMNS`, in board order. */
  const Columns: seq<Status> := [Pendente, Andamento, Revisao, Concluido]

  /** The board has a column for every status, and each only once. */
  lemma ColumnsComplete()
    ensures forall c: Status :: c in Columns
    ensures |Columns| == 4
  {
    forall c: Status ensures c in Columns {
      match c
      case Pendente => assert Columns[0] == c;
      case Andamento => assert Columns[1] == c;
      case Revisao => assert Columns[2] == c;
      case Concluido => assert Columns[3] == c;
    }
  }

  // ---- drag and drop ----

  datatype Location = Location(column: Status, index: nat)

  /** What the drag library reports when a card is released. */
  datatype DropResult = DropResult(destination: Option<Location>, source: Location, draggableId: string)

  /** The status write `onDragEnd` sends. */
  datatype StatusUpdate = StatusUpdate(id: string, status: Status)

  /** The list with every project of that id moved to the new status; nothing else changes. */
  function SetStatus(ps: seq<Project>, id: string, s: Status): (r: seq<Project>)
    ensures |r| == |ps|
    ensures forall i :: 0 <= i < |ps| && ps[i].id != id ==> r[i] == ps[i]
    ensures forall i :: 0 <= i < |ps| && ps[i].id == id ==> r[i] == ps[i].(status := s)
  {
    if ps == [] then []
    else [if ps[0].id == id then ps[0].(status := s) else ps[0]] + SetStatus(ps[1..], id, s)
  }

  /** A drop is ignored when it lands outside every column or exactly where it started. */
  predicate IsMove(r: DropResult)
  {
    r.destination.Some? && r.destination.value != r.source
  }

  // ---- collapsed columns ----

  predicate NoDuplicates(cs: seq<Status>)
  {
    forall i, j :: 0 <= i < j < |cs| ==> cs[i] != cs[j]
  }

  function IsNot(c: Status): Status -> bool
  {
    (x: Status) => x != c
  }

  /** `toggleColumn`: removes the column when it is collapsed, appends it otherwise. */
  function Toggle(cs: seq<Status>, c: Status): (r: seq<Status>)
    ensures c in r <==> c !in cs
    ensures forall x :: x != c ==> (x in r <==> x in cs)
    ensures NoDuplicates(cs) ==> NoDuplicates(r)
  {
    if c in cs then
      var r := Filter(cs, IsNot(c));
      FilterMembers(cs, IsNot(c));
      assert NoDuplicates(cs) ==> NoDuplicates(r) by {
        if NoDuplicates(cs) {
          FilterNoDuplicates(cs, IsNot(c));
        }
      }
      r
    else cs + [c]
  }

  lemma {:induction false} FilterNoDuplicates(cs: seq<Status>, p: Status -> bool)
    requires NoDuplicates(cs)
    ensures NoDuplicates(Filter(cs, p))
    ensures forall x :: x in Filter(cs, p) <==> x in cs && p(x)
  {
    if cs != [] {
      FilterNoDuplicates(cs[1..], p);
      assert cs[0] !in cs[1..];
    }
  }

  /** Toggling a column twice gives back the same collapsed set, and exactly the same
      list when the column was open. */
  lemma ToggleTwice(cs: seq<Status>, c: Status)
    requires NoDuplicates(cs)
    ensures forall x :: x in Toggle(Toggle(cs, c), c) <==> x in cs
    ensures c !in cs ==> Toggle(Toggle(cs, c), c) == cs
  {
    if c !in cs {
      FilterAppend(cs, [c], IsNot(c));
      assert Filter([c], IsNot(c)) == [];
      assert forall i :: 0 <= i < |cs| ==> IsNot(c)(cs[i]);
      FilterMembers(cs, IsNot(c));
      assert cs + [] == cs;
    }
  }

  // ---- tabs, counts and progress ----

  function HasClient(): Project -> bool
  {
    (p: Project) => p.clientId.Some?
  }

  function IsInternal(): Project -> bool
  {
    (p: Project) => p.clientId.None?
  }

  /** `activeProjects`: the client projects on the "clientes" tab, the internal ones on any other. */
  function ActiveProjects(ps: seq<Project>, tab: string): (r: seq<Project>)
    ensures forall i :: 0 <= i < |r| ==> r[i] in ps && (r[i].clientId.Some? <==> tab == "clientes")
    ensures forall i :: 0 <= i < |ps| && (ps[i].clientId.Some? <==> tab == "clientes") ==> ps[i] in r
  {
    FilterMembers(ps, HasClient());
    FilterMembers(ps, IsInternal());
    if tab == "clientes" then Filter(ps, HasClient()) else Filter(ps, IsInternal())
  }

  /** The two tabs split the projects: every project is on exactly one of them. */
  lemma TabsPartition(ps: seq<Project>, other: string)
    requires other != "clientes"
    ensures |ActiveProjects(ps, "clientes")| + |ActiveProjects(ps, other)| == |ps|
  {
    CountComplement(ps, HasClient(), IsInternal());
  }

  /** Filtering by a test that ignores the status commutes with a status change. */
  lemma {:induction false} FilterSetStatus(ps: seq<Project>, id: string, s: Status, p: Project -> bool)
    requires forall i :: 0 <= i < |ps| ==> p(ps[i].(status := s)) == p(ps[i])
    ensures Filter(SetStatus(ps, id, s), p) == SetStatus(Filter(ps, p), id, s)
  {
    if ps != [] {
      FilterSetStatus(ps[1..], id, s, p);
      var q := SetStatus(ps, id, s);
      var h := if ps[0].id == id then ps[0].(status := s) else ps[0];
      assert q == [h] + SetStatus(ps[1..], id, s);
      assert q[0] == h && q[1..] == SetStatus(ps[1..], id, s);
      assert p(h) == p(ps[0]);
      if p(ps[0]) {
        assert Filter(ps, p) == [ps[0]] + Filter(ps[1..], p);
        assert Filter(q, p) == [h] + Filter(q[1..], p);
      } else {
        assert Filter(ps, p) == Filter(ps[1..], p);
        assert Filter(q, p) == Filter(q[1..], p);
      }
    }
  }

  /** Moving a card never moves the project to the other tab. */
  lemma DragStaysInTab(ps: seq<Project>, id: string, s: Status, tab: string)
    ensures ActiveProjects(SetStatus(ps, id, s), tab) == SetStatus(ActiveProjects(ps, tab), id, s)
  {
    if tab == "clientes" {
      FilterSetStatus(ps, id, s, HasClient());
    } else {
      FilterSetStatus(ps, id, s, IsInternal());
    }
  }

  function HasStatus(s: Status): Project -> bool
  {
    (p: Project) => p.status == s
  }

  function CountStatus(ps: seq<Project>, s: Status): nat
  {
    Count(ps, HasStatus(s))
  }

  /** Every project is in exactly one column: the four counts add up to the total. */
  lemma {:induction false} StatusCountsSum(ps: seq<Project>)
    ensures CountStatus(ps, Concluido) + CountStatus(ps, Andamento)
          + CountStatus(ps, Pendente) + CountStatus(ps, Revisao) == |ps|
  {
    if ps != [] {
      StatusCountsSum(ps[1..]);
    }
  }

  /** `progressPercent`: the share of finished projects in percent, rounded half up
      (`Math.round`), and 0 for an empty list. */
  function ProgressPercent(ps: seq<Project>): (r: nat)
    ensures |ps| == 0 ==> r == 0
  {
    var t, c := |ps|, CountStatus(ps, Concluido);
    if t == 0 then 0 else (200 * c + t) / (2 * t)
  }

  lemma DivBounds(x: nat, d: nat)
    requires d > 0
    ensures d * (x / d) <= x < d * (x / d + 1)
  {
    assert x == d * (x / d) + x % d;
  }

  lemma MulMonotone(d: nat, a: nat, b: nat)
    requires a <= b
    ensures d * a <= d * b
  {
  }

  /** Rounding half up: `r` is the integer nearest to `100 * done / total`, ties upwards. */
  lemma RoundHalfUp(done: nat, total: nat)
    requires 0 < total && done <= total
    ensures var r := (200 * done + total) / (2 * total);
      2 * total * r <= 200 * done + total < 2 * total * (r + 1)
      && r <= 100
  {
    var x, d := 200 * done + total, 2 * total;
    var r := x / d;
    DivBounds(x, d);
    MulMonotone(200, done, total);
    if r > 100 {
      MulMonotone(d, 101, r);
      assert false;
    }
  }

  /** The progress figure is the nearest whole percentage of finished projects, within [0, 100]. */
  lemma ProgressPercentRounds(ps: seq<Project>)
    requires |ps| > 0
    ensures var r := ProgressPercent(ps);
      2 * |ps| * r <= 200 * CountStatus(ps, Concluido) + |ps| < 2 * |ps| * (r + 1)
      && r <= 100
  {
    RoundHalfUp(CountStatus(ps, Concluido), |ps|);
  }

  // ---- ordering ----

  predicate Overdue(p: Project, now: int)
  {
    p.deadline.Some? && p.deadline.value < now && p.status != Concluido
  }

  /** `priorityWeight[priority] || 0`. */
  function Weight(pr: Priority): (w: nat)
    ensures w <= 3
  {
    match pr
    case Alta => 3
    case Media => 2
    case Baixa => 1
    case Other => 0
  }

  /** The comparator as written: overdue first, then the heavier priority. */
  function Compare(a: Project, b: Project, now: int): int
  {
    var ao := if Overdue(a, now) then 1 else 0;
    var bo := if Overdue(b, now) then 1 else 0;
    if ao != bo then bo - ao else Weight(b.priority) - Weight(a.priority)
  }

  /** One number that orders projects the same way the comparator does. */
  function Rank(now: int): Project -> int
  {
    (p: Project) => (if Overdue(p, now) then 10 else 0) + Weight(p.priority)
  }

  /** The comparator and the rank agree on every pair: `Compare(a, b)` has the sign of
      `Rank(b) - Rank(a)`, so sorting by the comparator is sorting by descending rank. */
  lemma CompareIsRank(a: Project, b: Project, now: int)
    ensures Compare(a, b, now) < 0 <==> Rank(now)(a) > Rank(now)(b)
    ensures Compare(a, b, now) == 0 <==> Rank(now)(a) == Rank(now)(b)
  {
  }

  /** `sortedProjectsList`. */
  function SortedProjects(ps: seq<Project>, now: int): seq<Project>
  {
    SortByRankDesc(ps, Rank(now))
  }

  /** The list shows every project exactly once, overdue projects before the others and,
      within each group, higher priorities first. */
  lemma SortedProjectsOrder(ps: seq<Project>, now: int)
    ensures multiset(SortedProjects(ps, now)) == multiset(ps)
    ensures var r := SortedProjects(ps, now);
      forall i, j :: 0 <= i < j < |r| ==>
        (Overdue(r[j], now) ==> Overdue(r[i], now))
        && (Overdue(r[i], now) == Overdue(r[j], now) ==> Weight(r[i].priority) >= Weight(r[j].priority))
  {
    SortPermutes(ps, Rank(now));
    SortSorted(ps, Rank(now));
    var r := SortedProjects(ps, now);
    forall i, j | 0 <= i < j < |r|
      ensures Overdue(r[j], now) ==> Overdue(r[i], now)
      ensures Overdue(r[i], now) == Overdue(r[j], now) ==> Weight(r[i].priority) >= Weight(r[j].priority)
    {
      assert Rank(now)(r[i]) >= Rank(now)(r[j]);
    }
  }

  /** Projects that tie on the comparator keep their relative order. */
  lemma SortedProjectsStable(ps: seq<Project>, now: int, v: int)
    ensures Filter(SortedProjects(ps, now), RankIs(Rank(now), v)) == Filter(ps, RankIs(Rank(now), v))
  {
    SortStable(ps, Rank(now), v);
  }

  // ---- client names ----

  /** `clients.find(c => c.id === id)`, as the index of the first match. */
  function FindClient(cs: seq<ClientRef>, id: string): (r: Option<nat>)
    ensures r.Some? ==> r.value < |cs| && cs[r.value].id == id
                        && forall j :: 0 <= j < r.value ==> cs[j].id != id
    ensures r.None? ==> forall j :: 0 <= j < |cs| ==> cs[j].id != id
  {
    if cs == [] then None
    else if cs[0].id == id then Some(0)
    else match FindClient(cs[1..], id)
      case None => None
      case Some(k) => Some(k + 1)
  }

  /** `getClientName`: internal projects are labelled as such; a client that is not in
      the list, or has no company name, shows as unknown. */
  function GetClientName(cs: seq<ClientRef>, clientId: Option<string>): (r: string)
    ensures !Truthy(clientId) ==> r == "Projeto Interno"
    ensures Truthy(clientId) && (forall j :: 0 <= j < |cs| ==> cs[j].id != clientId.value) ==> r == "Desconhecido"
    ensures forall k :: Truthy(clientId) && 0 <= k < |cs| && cs[k].id == clientId.value
                        && (forall j :: 0 <= j < k ==> cs[j].id != clientId.value)
                        ==> r == (if cs[k].companyName == "" then "Desconhecido" else cs[k].companyName)
  {
    if !Truthy(clientId) then "Projeto Interno"
    else match FindClient(cs, clientId.value)
      case None => "Desconhecido"
      case Some(k) => if cs[k].companyName == "" then "Desconhecido" else cs[k].companyName
  }

  /** The name shown is the internal label, the unknown label or the company of a client with that id. */
  lemma ClientNameSource(cs: seq<ClientRef>, clientId: Option<string>)
    ensures var r := GetClientName(cs, clientId);
      r == "Projeto Interno" || r == "Desconhecido"
      || exists k :: 0 <= k < |cs| && cs[k].id == clientId.value && cs[k].companyName == r
  {
  }

  // ---- team workload ----

  function EntryCount(e: Entry): int { e.count }

  /** The team-stats loop of `fetchData`: counts the member rows per name, lists the names
      in first-seen order and sorts them by count, busiest first (ties keep that order). */
  method TeamStats(names: seq<string>) returns (stats: seq<Entry>)
    ensures stats == SortByRankDesc(Entries(names), EntryCount)
  {
    var keys: seq<string> := [];
    var counts: map<string, nat> := map[];
    assert names[..0] == [];
    var i := 0;
    while i < |names|
      invariant 0 <= i <= |names|
      invariant keys == Keys(names[..i]) && counts == Counts(names[..i])
    {
      assert names[..i + 1] == names[..i] + [names[i]];
      keys, counts := Bump(names[..i], keys, counts, names[i]);
      i := i + 1;
    }
    assert names[..i] == names;
    var entries := seq(|keys|, j requires 0 <= j < |keys| => Entry(keys[j], counts[keys[j]]));
    assert entries == Entries(names);
    stats := SortByRankDesc(entries, EntryCount);
  }

  /** The ranking lists every name once with its number of rows, busiest first. */
  lemma TeamStatsShape(names: seq<string>)
    ensures var stats := SortByRankDesc(Entries(names), EntryCount);
      && multiset(stats) == multiset(Entries(names))
      && (forall i, j :: 0 <= i < j < |stats| ==> stats[i].count >= stats[j].count)
      && |stats| == |Keys(names)|
  {
    var stats := SortByRankDesc(Entries(names), EntryCount);
    SortPermutes(Entries(names), EntryCount);
    SortSorted(Entries(names), EntryCount);
    forall i, j | 0 <= i < j < |stats| ensures stats[i].count >= stats[j].count {
      assert EntryCount(stats[i]) >= EntryCount(stats[j]);
    }
  }

  // ---- the page ----

  class Board {
    var projects: seq<Project>
    var clients: seq<ClientRef>
    var teamStats: seq<Entry>
    var collapsedCols: seq<Status>
    var activeTab: string
    var deleteDialogOpen: bool
    var projectToDeleteId: Option<string>

    /** A column is never listed twice among the collapsed ones. */
    predicate Valid()
      reads this
    {
      NoDuplicates(collapsedCols)
    }

    constructor()
      ensures Valid()
      ensures projects == [] && clients == [] && teamStats == [] && collapsedCols == []
      ensures activeTab == "clientes" && !deleteDialogOpen && projectToDeleteId == None
    {
      projects := [];
      clients := [];
      teamStats := [];
      collapsedCols := [];
      activeTab := "clientes";
      deleteDialogOpen := false;
      projectToDeleteId := None;
    }

    /** `fetchData`: each result that arrives replaces its list; member rows are ranked. */
    method Fetched(projectRows: Option<seq<Project>>, clientRows: Option<seq<ClientRef>>, memberNames: Option<seq<string>>)
      modifies this
      ensures projects == (if projectRows.Some? then projectRows.value else old(projects))
      ensures clients == (if clientRows.Some? then clientRows.value else old(clients))
      ensures teamStats == (if memberNames.Some? then SortByRankDesc(Entries(memberNames.value), EntryCount) else old(teamStats))
      ensures collapsedCols == old(collapsedCols) && activeTab == old(activeTab)
      ensures deleteDialogOpen == old(deleteDialogOpen) && projectToDeleteId == old(projectToDeleteId)
    {
      if projectRows.Some? {
        projects := projectRows.value;
      }
      if clientRows.Some? {
        clients := clientRows.value;
      }
      if memberNames.Some? {
        teamStats := TeamStats(memberNames.value);
      }
    }

    /** `onDragEnd`: a real move sets the dragged project's status to the target column at
        once and sends that status; an ignored drop changes nothing and sends nothing. */
    method OnDragEnd(r: DropResult) returns (update: Option<StatusUpdate>)
      modifies this
      ensures !IsMove(r) ==> update == None && projects == old(projects)
      ensures IsMove(r) ==>
        var s := r.destination.value.column;
        update == Some(StatusUpdate(r.draggableId, s)) && projects == SetStatus(old(projects), r.draggableId, s)
      ensures clients == old(clients) && teamStats == old(teamStats)
      ensures collapsedCols == old(collapsedCols) && activeTab == old(activeTab)
      ensures deleteDialogOpen == old(deleteDialogOpen) && projectToDeleteId == old(projectToDeleteId)
    {
      if r.destination.None? {
        return None;
      }
      var dest := r.destination.value;
      if dest.column == r.source.column && dest.index == r.source.index {
        return None;
      }
      projects := SetStatus(projects, r.draggableId, dest.column);
      update := Some(StatusUpdate(r.draggableId, dest.column));
    }

    /** `toggleColumn`. */
    method ToggleColumn(c: Status)
      requires Valid()
      modifies this
      ensures Valid()
      ensures collapsedCols == Toggle(old(collapsedCols), c)
      ensures projects == old(projects) && clients == old(clients) && teamStats == old(teamStats)
      ensures activeTab == old(activeTab)
      ensures deleteDialogOpen == old(deleteDialogOpen) && projectToDeleteId == old(projectToDeleteId)
    {
      collapsedCols := Toggle(collapsedCols, c);
    }

    /** `showKanban`: opens every column. */
    method ShowKanban()
      modifies this
      ensures Valid() && !AnalyticsVisible()
      ensures collapsedCols == []
      ensures projects == old(projects) && clients == old(clients) && teamStats == old(teamStats)
      ensures activeTab == old(activeTab)
      ensures deleteDialogOpen == old(deleteDialogOpen) && projectToDeleteId == old(projectToDeleteId)
    {
      collapsedCols := [];
    }

    /** `showAnalytics`: collapses all four columns. */
    method ShowAnalytics()
      modifies this
      ensures Valid() && AnalyticsVisible()
      ensures collapsedCols == Columns
      ensures forall c: Status :: c in collapsedCols
      ensures projects == old(projects) && clients == old(clients) && teamStats == old(teamStats)
      ensures activeTab == old(activeTab)
      ensures deleteDialogOpen == old(deleteDialogOpen) && projectToDeleteId == old(projectToDeleteId)
    {
      collapsedCols := Columns;
      ColumnsComplete();
    }

    /** `isAnalyticsVisible`: some column is collapsed. */
    predicate AnalyticsVisible()
      reads this
    {
      |collapsedCols| > 0
    }

    method SetActiveTab(tab: string)
      modifies this
      ensures activeTab == tab
      ensures projects == old(projects) && clients == old(clients) && teamStats == old(teamStats)
      ensures collapsedCols == old(collapsedCols)
      ensures deleteDialogOpen == old(deleteDialogOpen) && projectToDeleteId == old(projectToDeleteId)
    {
      activeTab := tab;
    }

    /** `requestDeleteProject`: remembers the project and opens the confirmation. */
    method RequestDelete(id: string)
      modifies this
      ensures projectToDeleteId == Some(id) && deleteDialogOpen
      ensures projects == old(projects) && clients == old(clients) && teamStats == old(teamStats)
      ensures collapsedCols == old(collapsedCols) && activeTab == old(activeTab)
    {
      projectToDeleteId := Some(id);
      deleteDialogOpen := true;
    }

    /** `confirmDelete`: without a remembered project nothing happens; otherwise the project
        leaves the list when the delete succeeds and the confirmation closes either way.
        Returns whether the delete was sent. */
    method ConfirmDelete(deleteOk: bool) returns (sent: bool)
      modifies this
      ensures sent == Truthy(old(projectToDeleteId))
      ensures sent ==> !deleteDialogOpen && projectToDeleteId == None
      ensures !sent ==> deleteDialogOpen == old(deleteDialogOpen) && projectToDeleteId == old(projectToDeleteId)
      ensures projects == (if sent && deleteOk then Without(old(projects), old(projectToDeleteId).value) else old(projects))
      ensures clients == old(clients) && teamStats == old(teamStats)
      ensures collapsedCols == old(collapsedCols) && activeTab == old(activeTab)
    {
      if !Truthy(projectToDeleteId) {
        return false;
      }
      sent := true;
      if deleteOk {
        projects := Without(projects, projectToDeleteId.value);
      }
      deleteDialogOpen := false;
      projectToDeleteId := None;
    }
  }

  function IdOf(p: Project): string
  {
    p.id
  }

  /** The list after a successful delete. */
  function Without(xs: seq<Project>, id: string): seq<Project>
  {
    WithoutKey(xs, IdOf, id)
  }
}
