/**
 * The dashboard summary: counts and a revenue sum computed from the four
 * fetched collections (clients, projects, tasks, invoices), and a fixed
 * recent-activity feed. Fetching the collections is not modelled; they are
 * inputs, as is the current time in milliseconds.
 */
module DashboardService {
  import opened Basics

  datatype Project = Project(status: string)

  /** `dueDate` is the instant the due date parses to; None when it does not parse (an invalid Date). */
  datatype Task = Task(status: string, dueDate: Option<int>)

  datatype Invoice = Invoice(status: string, amount: Option<int>)

  datatype Summary = Summary(
    totalClients: nat,
    activeProjects: nat,
    pendingTasks: nat,
    monthlyRevenue: int,
    completedTasks: nat,
    overdueItems: nat)

  datatype QuickStats = QuickStats(tasksCompleted: nat, invoicesSent: nat)

  datatype Activity = Activity(id: int, kind: string, title: string, client: string, time: string, icon: string)

  datatype Dashboard = Dashboard(summary: Summary, recentActivity: seq<Activity>, quickStats: QuickStats)

  /** `s.filter(keep)`: the elements that pass, in order. */
  function Filter<T>(s: seq<T>, keep: T -> bool): seq<T>
  {
    if s == [] then [] else Filter(s[..|s| - 1], keep) + (if keep(s[|s| - 1]) then [s[|s| - 1]] else [])
  }

  /** The positions of `s` whose element passes `keep`. */
  ghost function Where<T>(s: seq<T>, keep: T -> bool): set<int>
  {
    set i | 0 <= i < |s| && keep(s[i])
  }

  /** `filter(keep).length` is the number of positions whose element passes. */
  lemma {:induction false} FilterLength<T>(s: seq<T>, keep: T -> bool)
    ensures |Filter(s, keep)| == |Where(s, keep)|
  {
    if s != [] {
      var n := |s| - 1;
      FilterLength(s[..n], keep);
      var before := Where(s[..n], keep);
      assert before == set i | 0 <= i < n && keep(s[i]);
      if keep(s[n]) {
        assert Where(s, keep) == before + {n};
        assert n !in before;
      } else {
        assert Where(s, keep) == before;
      }
    }
  }

  /** Two tests that no element passes together select at most `|s|` elements between them. */
  lemma {:induction false} DisjointFiltersBound<T>(s: seq<T>, p: T -> bool, q: T -> bool)
    requires forall i | 0 <= i < |s| :: !(p(s[i]) && q(s[i]))
    ensures |Filter(s, p)| + |Filter(s, q)| <= |s|
  {
    if s != [] {
      var n := |s| - 1;
      assert forall i | 0 <= i < n :: s[..n][i] == s[i];
      DisjointFiltersBound(s[..n], p, q);
    }
  }

  predicate IsActive(p: Project) { p.status == "active" }
  predicate IsPending(t: Task) { t.status == "todo" || t.status == "in-progress" }
  predicate IsDone(t: Task) { t.status == "done" }
  /** `new Date(t.dueDate) < new Date() && t.status !== 'done'`; an invalid date compares false. */
  predicate IsOverdue(t: Task, now: int) { t.dueDate.Some? && t.dueDate.value < now && t.status != "done" }
  predicate IsPaid(i: Invoice) { i.status == "paid" }
  predicate IsSent(i: Invoice) { i.status == "sent" }

  /** `invoice.amount || 0` */
  function AmountOrZero(i: Invoice): int
  {
    if i.amount.Some? then i.amount.value else 0
  }

  /** `reduce((sum, invoice) => sum + (invoice.amount || 0), 0)`: a left fold. */
  function SumAmounts(invoices: seq<Invoice>): int
  {
    if invoices == [] then 0 else SumAmounts(invoices[..|invoices| - 1]) + AmountOrZero(invoices[|invoices| - 1])
  }

  /** The number of projects whose status is exactly "active". */
  function ActiveProjects(projects: seq<Project>): (n: nat)
    ensures n == |set i | 0 <= i < |projects| && projects[i].status == "active"|
  {
    FilterLength(projects, IsActive);
    assert Where(projects, IsActive) == set i | 0 <= i < |projects| && projects[i].status == "active";
    |Filter(projects, IsActive)|
  }

  /** The number of tasks whose status is "todo" or "in-progress". */
  function PendingTasks(tasks: seq<Task>): (n: nat)
    ensures n == |set i | 0 <= i < |tasks| && (tasks[i].status == "todo" || tasks[i].status == "in-progress")|
  {
    FilterLength(tasks, IsPending);
    assert Where(tasks, IsPending) == set i | 0 <= i < |tasks| && (tasks[i].status == "todo" || tasks[i].status == "in-progress");
    |Filter(tasks, IsPending)|
  }

  /** The number of tasks whose status is "done". */
  function CompletedTasks(tasks: seq<Task>): (n: nat)
    ensures n == |set i | 0 <= i < |tasks| && tasks[i].status == "done"|
  {
    FilterLength(tasks, IsDone);
    assert Where(tasks, IsDone) == set i | 0 <= i < |tasks| && tasks[i].status == "done";
    |Filter(tasks, IsDone)|
  }

  /** The number of tasks not done whose due date is strictly before `now`. */
  function OverdueItems(tasks: seq<Task>, now: int): (n: nat)
    ensures n == |set i | 0 <= i < |tasks| && tasks[i].dueDate.Some? && tasks[i].dueDate.value < now && tasks[i].status != "done"|
  {
    var overdue := t => IsOverdue(t, now);
    FilterLength(tasks, overdue);
    assert Where(tasks, overdue) == set i | 0 <= i < |tasks| && tasks[i].dueDate.Some? && tasks[i].dueDate.value < now && tasks[i].status != "done";
    |Filter(tasks, overdue)|
  }

  /** The number of invoices whose status is "sent". */
  function InvoicesSent(invoices: seq<Invoice>): (n: nat)
    ensures n == |set i | 0 <= i < |invoices| && invoices[i].status == "sent"|
  {
    FilterLength(invoices, IsSent);
    assert Where(invoices, IsSent) == set i | 0 <= i < |invoices| && invoices[i].status == "sent";
    |Filter(invoices, IsSent)|
  }

  /** The amounts of the paid invoices added up, a missing amount counting as 0. */
  function MonthlyRevenue(invoices: seq<Invoice>): (revenue: int)
    ensures (forall i | 0 <= i < |invoices| :: invoices[i].status != "paid") ==> revenue == 0
  {
    FilterLength(invoices, IsPaid);
    assert (forall i | 0 <= i < |invoices| :: invoices[i].status != "paid") ==> Where(invoices, IsPaid) == {};
    SumAmounts(Filter(invoices, IsPaid))
  }

  lemma {:induction false} SumAmountsConcat(a: seq<Invoice>, b: seq<Invoice>)
    ensures SumAmounts(a + b) == SumAmounts(a) + SumAmounts(b)
  {
    if b == [] {
      assert a + b == a;
    } else {
      var n := |b| - 1;
      assert (a + b)[..|a + b| - 1] == a + b[..n];
      assert (a + b)[|a + b| - 1] == b[n];
      SumAmountsConcat(a, b[..n]);
    }
  }

  lemma {:induction false} FilterConcat<T>(a: seq<T>, b: seq<T>, keep: T -> bool)
    ensures Filter(a + b, keep) == Filter(a, keep) + Filter(b, keep)
  {
    if b == [] {
      assert a + b == a;
    } else {
      var n := |b| - 1;
      assert (a + b)[..|a + b| - 1] == a + b[..n];
      assert (a + b)[|a + b| - 1] == b[n];
      FilterConcat(a, b[..n], keep);
    }
  }

  /** Revenue splits over a concatenation of invoice lists. */
  lemma RevenueConcat(a: seq<Invoice>, b: seq<Invoice>)
    ensures MonthlyRevenue(a + b) == MonthlyRevenue(a) + MonthlyRevenue(b)
  {
    FilterConcat(a, b, IsPaid);
    SumAmountsConcat(Filter(a, IsPaid), Filter(b, IsPaid));
  }

  /**
   * One invoice anywhere in the list contributes its amount (0 when missing)
   * to the revenue when it is paid, and nothing otherwise.
   */
  lemma RevenueOfOneInvoice(before: seq<Invoice>, invoice: Invoice, after: seq<Invoice>)
    ensures MonthlyRevenue(before + [invoice] + after)
            == MonthlyRevenue(before + after) + (if invoice.status == "paid" then AmountOrZero(invoice) else 0)
  {
    RevenueConcat(before + [invoice], after);
    RevenueConcat(before, [invoice]);
    RevenueConcat(before, after);
    assert Filter([invoice], IsPaid) == Filter([], IsPaid) + (if IsPaid(invoice) then [invoice] else []);
    assert SumAmounts([invoice]) == SumAmounts([]) + AmountOrZero(invoice);
  }

  /** With no negative amounts, the revenue is not negative. */
  lemma {:induction false} RevenueNonNegative(invoices: seq<Invoice>)
    requires forall i | 0 <= i < |invoices| :: AmountOrZero(invoices[i]) >= 0
    ensures MonthlyRevenue(invoices) >= 0
  {
    if invoices != [] {
      var n := |invoices| - 1;
      assert invoices == invoices[..n] + [invoices[n]];
      assert forall i | 0 <= i < n :: invoices[..n][i] == invoices[i];
      RevenueNonNegative(invoices[..n]);
      RevenueOfOneInvoice(invoices[..n], invoices[n], []);
      assert invoices[..n] + [invoices[n]] + [] == invoices;
      assert invoices[..n] + [] == invoices[..n];
    }
  }

  /** The fixed feed the dashboard shows whatever was fetched. */
  function RecentActivity(): (feed: seq<Activity>)
    ensures |feed| == 5
    ensures forall i | 0 <= i < |feed| :: feed[i].id == i + 1
  {
    [
      Activity(1, "project", "Project activity updated", "Active Client", "2 hours ago", "CheckCircle2"),
      Activity(2, "task", "New task created", "Project Team", "4 hours ago", "Plus"),
      Activity(3, "invoice", "Invoice sent to client", "Business Client", "6 hours ago", "FileText"),
      Activity(4, "client", "New client added", "New Business", "1 day ago", "UserPlus"),
      Activity(5, "payment", "Payment received", "Valued Client", "2 days ago", "DollarSign")
    ]
  }

  /** `getDashboardData` once the four collections have been fetched. */
  function GetDashboardData<C>(clients: seq<C>, projects: seq<Project>, tasks: seq<Task>, invoices: seq<Invoice>, now: int): (d: Dashboard)
    ensures d.summary.totalClients == |clients|
    ensures d.summary.activeProjects == ActiveProjects(projects)
    ensures d.summary.pendingTasks == PendingTasks(tasks)
    ensures d.summary.completedTasks == CompletedTasks(tasks)
    ensures d.summary.overdueItems == OverdueItems(tasks, now)
    ensures d.summary.monthlyRevenue == MonthlyRevenue(invoices)
    ensures d.quickStats.invoicesSent == InvoicesSent(invoices)
    ensures d.summary.pendingTasks + d.summary.completedTasks <= |tasks|
    ensures d.summary.overdueItems + d.summary.completedTasks <= |tasks|
    ensures d.quickStats.tasksCompleted == d.summary.completedTasks
    ensures d.recentActivity == RecentActivity()
  {
    DisjointFiltersBound(tasks, IsPending, IsDone);
    DisjointFiltersBound(tasks, t => IsOverdue(t, now), IsDone);
    var completed := CompletedTasks(tasks);
    Dashboard(
      Summary(
        |clients|,
        ActiveProjects(projects),
        PendingTasks(tasks),
        MonthlyRevenue(invoices),
        completed,
        OverdueItems(tasks, now)),
      RecentActivity(),
      QuickStats(completed, InvoicesSent(invoices)))
  }
}
