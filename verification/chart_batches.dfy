/**
 * `BChart::generate` (app/lib/widget/builder/charts/BChart.php): the widgets that may be
 * shown and name a database are grouped by database, in the order the databases first
 * appear; each group is then created inside one transaction on its database.
 *
 * Opening a transaction and creating a widget are not executed: they are recorded as
 * events, so the model states which widgets are created under which transaction. A
 * chart's `create` loads its data, whose parameter checks can throw: the run then stops
 * with the events so far, and the transaction it was in is never closed.
 */
module ChartBatches {
  import opened Results
  import opened Strings
  import opened Seqs
  import opened ChartConfig

  /** The widget classes `generate` accepts (`BChart`, `BTableChart`, `BIndicator`) and anything else. */
  datatype WidgetKind = ChartWidget | TableChartWidget | IndicatorWidget | OtherWidget

  /** A widget: its class, the methods it is shown for, and the parameters its data load needs. */
  datatype Widget = Widget(id: nat, kind: WidgetKind, showMethods: seq<string>, database: string,
                           model: string, fieldGroup: seq<string>, fieldValue: string)

  /** The parameters `loadData` checks, as the widget holds them. */
  function SourceOf(w: Widget): Source {
    Source(w.database, w.model, w.fieldGroup, w.fieldValue)
  }

  /**
   * What `create()` throws: a chart loads its data, whose first step is the parameter
   * check. The table and indicator widgets' own `create` is not part of this model.
   */
  function CreateError(w: Widget): Option<ConfigError> {
    if w.kind.ChartWidget? && CheckRequired(SourceOf(w)).Err? then Some(CheckRequired(SourceOf(w)).error) else None
  }

  /** `canDisplay`: without a method list every request shows the widget; with one, only those methods. */
  predicate CanDisplay(w: Widget, request: string) {
    |w.showMethods| == 0 || request in w.showMethods
  }

  /** A widget `generate` will create: it may be shown and names a database. */
  predicate Scheduled(w: Widget, request: string) {
    CanDisplay(w, request) && Truthy(w.database)
  }

  /** A widget `generate` rejects: it may be shown but is not one of the chart classes. */
  predicate Rejected(w: Widget, request: string) {
    CanDisplay(w, request) && w.kind.OtherWidget?
  }

  /** The widgets of one database, in the order they were passed. */
  datatype Batch = Batch(database: string, widgets: seq<Widget>)

  function DatabasesOf(bs: seq<Batch>): (ds: seq<string>)
    ensures |ds| == |bs| && forall i :: 0 <= i < |bs| ==> ds[i] == bs[i].database
  {
    seq(|bs|, i requires 0 <= i < |bs| => bs[i].database)
  }

  /** `$chartsDBs[$db][] = $chart`: append to the database's batch, opening a new batch at the end if needed. */
  function AddToBatch(bs: seq<Batch>, w: Widget): (r: seq<Batch>)
    ensures w.database in DatabasesOf(bs) ==> |r| == |bs|
    ensures w.database in DatabasesOf(bs) ==>
              var k := IndexOf(DatabasesOf(bs), w.database);
              bs[k].database == w.database && r == bs[k := Batch(w.database, bs[k].widgets + [w])]
    ensures w.database !in DatabasesOf(bs) ==> r == bs + [Batch(w.database, [w])]
  {
    var ds := DatabasesOf(bs);
    if w.database in ds then
      var k := IndexOf(ds, w.database);
      bs[k := Batch(w.database, bs[k].widgets + [w])]
    else bs + [Batch(w.database, [w])]
  }

  /** The first loop of `generate`: the batches, or the error for the first rejected widget. */
  function Group(ws: seq<Widget>, request: string): (r: Result<seq<Batch>, ConfigError>)
    ensures r.Err? ==> r.error == InvalidParameter("charts")
  {
    if |ws| == 0 then Ok([])
    else
      var bs :- Group(ws[..|ws| - 1], request);
      var w := ws[|ws| - 1];
      if !CanDisplay(w, request) then Ok(bs)
      else if w.kind.OtherWidget? then Err(InvalidParameter("charts"))
      else if Empty(w.database) then Ok(bs)
      else Ok(AddToBatch(bs, w))
  }

  /** What `generate` does to the outside world. */
  datatype Event = Open(database: string) | Create(id: nat) | Close

  /** The events of a run, and the error that stopped it, if any. */
  datatype Trace = Trace(events: seq<Event>, failure: Option<ConfigError>)

  /** True when every widget of the batch is created without an error. */
  predicate BatchLoads(b: Batch) {
    forall j :: 0 <= j < |b.widgets| ==> CreateError(b.widgets[j]).None?
  }

  /** `create()` for each widget in turn, stopping at the first that throws. */
  function Creates(ws: seq<Widget>): (t: Trace)
    ensures t.failure.None? <==> forall j :: 0 <= j < |ws| ==> CreateError(ws[j]).None?
    ensures t.failure.Some? ==> exists j :: 0 <= j < |ws| && CreateError(ws[j]) == t.failure
    ensures t.failure.None? ==> |t.events| == |ws| && forall j :: 0 <= j < |ws| ==> t.events[j] == Create(ws[j].id)
    ensures forall k :: 0 <= k < |t.events| ==> t.events[k].Create?
  {
    if |ws| == 0 then Trace([], None)
    else match CreateError(ws[0])
      case Some(e) => Trace([], Some(e))
      case None =>
        var t := Creates(ws[1..]);
        assert forall j :: 1 <= j < |ws| ==> ws[1..][j - 1] == ws[j];
        Trace([Create(ws[0].id)] + t.events, t.failure)
  }

  /** `TTransaction::open($db)`, `create()` for each widget, `TTransaction::close()` unless a create threw. */
  function Transaction(b: Batch): (t: Trace)
    ensures t.failure.None? <==> BatchLoads(b)
    ensures t.failure.Some? ==> exists j :: 0 <= j < |b.widgets| && CreateError(b.widgets[j]) == t.failure
  {
    var c := Creates(b.widgets);
    if c.failure.Some? then Trace([Open(b.database)] + c.events, c.failure)
    else Trace([Open(b.database)] + c.events + [Close], None)
  }

  /** The second loop: one transaction per batch, in batch order, until a create throws. */
  function Run(bs: seq<Batch>): (t: Trace)
    ensures t.failure.None? <==> forall i :: 0 <= i < |bs| ==> BatchLoads(bs[i])
  {
    if |bs| == 0 then Trace([], None)
    else
      var t := Transaction(bs[0]);
      if t.failure.Some? then t
      else
        var r := Run(bs[1..]);
        assert forall i :: 1 <= i < |bs| ==> bs[1..][i - 1] == bs[i];
        Trace(t.events + r.events, r.failure)
  }

  /**
   * `generate`: nothing is opened or created when a widget is rejected, because all
   * widgets are grouped before the first transaction.
   */
  function Generate(ws: seq<Widget>, request: string): (t: Trace)
    ensures Group(ws, request).Err? ==> t == Trace([], Some(InvalidParameter("charts")))
  {
    match Group(ws, request)
    case Err(e) => Trace([], Some(e))
    case Ok(bs) => Run(bs)
  }

  // ---------------------------------------------------------------------------
  // The grouping as a reference definition: for each database in order of first
  // appearance, the scheduled widgets of that database.

  /** The databases of the scheduled widgets, in the order of the widgets. */
  function ScheduledDatabases(ws: seq<Widget>, request: string): seq<string> {
    if |ws| == 0 then []
    else
      var w := ws[|ws| - 1];
      ScheduledDatabases(ws[..|ws| - 1], request) + (if Scheduled(w, request) then [w.database] else [])
  }

  /** The scheduled widgets of database `db`, in order. */
  function ScheduledOn(ws: seq<Widget>, request: string, db: string): seq<Widget> {
    if |ws| == 0 then []
    else
      var w := ws[|ws| - 1];
      ScheduledOn(ws[..|ws| - 1], request, db) + (if Scheduled(w, request) && w.database == db then [w] else [])
  }

  function BatchesSpec(ws: seq<Widget>, request: string): (bs: seq<Batch>)
    ensures DatabasesOf(bs) == Distinct(ScheduledDatabases(ws, request))
  {
    var ds := Distinct(ScheduledDatabases(ws, request));
    seq(|ds|, i requires 0 <= i < |ds| => Batch(ds[i], ScheduledOn(ws, request, ds[i])))
  }

  /** No rejected widget among `ws`. */
  predicate AllAccepted(ws: seq<Widget>, request: string) {
    forall i :: 0 <= i < |ws| ==> !Rejected(ws[i], request)
  }

  /** `generate` fails exactly when some displayable widget is not a chart. */
  lemma {:induction false} GroupFailsOnRejected(ws: seq<Widget>, request: string)
    ensures Group(ws, request).Err? <==> !AllAccepted(ws, request)
  {
    if |ws| > 0 {
      var p := ws[..|ws| - 1];
      GroupFailsOnRejected(p, request);
      assert forall i :: 0 <= i < |p| ==> p[i] == ws[i];
      if !AllAccepted(p, request) {
        var i :| 0 <= i < |p| && Rejected(p[i], request);
        assert Rejected(ws[i], request);
      }
    }
  }

  /** Adding a widget to the batch at position `k`, which is its database's. */
  lemma AddToExisting(bs: seq<Batch>, w: Widget, k: nat)
    requires k < |bs| && NoDup(DatabasesOf(bs)) && bs[k].database == w.database
    ensures AddToBatch(bs, w) == bs[k := Batch(w.database, bs[k].widgets + [w])]
  {
    IndexOfNoDup(DatabasesOf(bs), k);
  }

  /** A widget that is not scheduled leaves the reference grouping as it was. */
  lemma SpecSkip(ws: seq<Widget>, request: string)
    requires |ws| > 0 && !Scheduled(ws[|ws| - 1], request)
    ensures BatchesSpec(ws, request) == BatchesSpec(ws[..|ws| - 1], request)
  {
    var p := ws[..|ws| - 1];
    assert ScheduledDatabases(ws, request) == ScheduledDatabases(p, request);
    assert forall db :: ScheduledOn(ws, request, db) == ScheduledOn(p, request, db);
  }

  /** A scheduled widget on a database not seen before opens a new batch at the end. */
  lemma SpecNewBatch(ws: seq<Widget>, request: string)
    requires |ws| > 0 && Scheduled(ws[|ws| - 1], request)
    requires ws[|ws| - 1].database !in ScheduledDatabases(ws[..|ws| - 1], request)
    ensures BatchesSpec(ws, request) == BatchesSpec(ws[..|ws| - 1], request) + [Batch(ws[|ws| - 1].database, [ws[|ws| - 1]])]
  {
    var p := ws[..|ws| - 1];
    var w := ws[|ws| - 1];
    var sp := ScheduledDatabases(p, request);
    var s := ScheduledDatabases(ws, request);
    assert s == sp + [w.database];
    assert s[..|s| - 1] == sp;
    var d := Distinct(sp);
    assert Distinct(s) == d + [w.database];
    assert ScheduledOn(p, request, w.database) == [] by {
      NotScheduledOn(p, request, w.database);
    }
    assert ScheduledOn(ws, request, w.database) == [w];
    forall i | 0 <= i < |d|
      ensures ScheduledOn(ws, request, d[i]) == ScheduledOn(p, request, d[i])
    {
      assert d[i] in sp;
    }
    var l := BatchesSpec(ws, request);
    var r := BatchesSpec(p, request) + [Batch(w.database, [w])];
    assert |l| == |r|;
    forall i | 0 <= i < |l|
      ensures l[i] == r[i]
    {
    }
  }

  /** A database that no scheduled widget names has an empty batch. */
  lemma {:induction false} NotScheduledOn(ws: seq<Widget>, request: string, db: string)
    requires db !in ScheduledDatabases(ws, request)
    ensures ScheduledOn(ws, request, db) == []
  {
    if |ws| > 0 {
      NotScheduledOn(ws[..|ws| - 1], request, db);
    }
  }

  /** A scheduled widget on a database seen before joins that database's batch. */
  lemma SpecJoin(ws: seq<Widget>, request: string, k: nat)
    requires |ws| > 0 && Scheduled(ws[|ws| - 1], request)
    requires k < |BatchesSpec(ws[..|ws| - 1], request)|
    requires BatchesSpec(ws[..|ws| - 1], request)[k].database == ws[|ws| - 1].database
    ensures BatchesSpec(ws, request) ==
              BatchesSpec(ws[..|ws| - 1], request)[k := Batch(ws[|ws| - 1].database,
                BatchesSpec(ws[..|ws| - 1], request)[k].widgets + [ws[|ws| - 1]])]
  {
    var p := ws[..|ws| - 1];
    var w := ws[|ws| - 1];
    var sp := ScheduledDatabases(p, request);
    var s := ScheduledDatabases(ws, request);
    assert s == sp + [w.database];
    assert s[..|s| - 1] == sp;
    var d := Distinct(sp);
    assert d[k] == w.database;
    assert Distinct(s) == d;
    forall i | 0 <= i < |d| && i != k
      ensures ScheduledOn(ws, request, d[i]) == ScheduledOn(p, request, d[i])
    {
      assert d[i] != d[k];
    }
  }

  /**
   * The loop builds the reference grouping: when no widget is rejected, batch i holds the
   * i-th database in order of first appearance and exactly its scheduled widgets, in order.
   */
  lemma {:induction false} GroupIsSpec(ws: seq<Widget>, request: string)
    requires AllAccepted(ws, request)
    ensures Group(ws, request) == Ok(BatchesSpec(ws, request))
  {
    if |ws| > 0 {
      var p := ws[..|ws| - 1];
      var w := ws[|ws| - 1];
      assert AllAccepted(p, request) by {
        assert forall i :: 0 <= i < |p| ==> p[i] == ws[i];
      }
      GroupIsSpec(p, request);
      var bs := BatchesSpec(p, request);
      assert !Rejected(w, request) by {
        assert w == ws[|ws| - 1];
      }
      if !Scheduled(w, request) {
        SpecSkip(ws, request);
      } else if w.database in DatabasesOf(bs) {
        var k := IndexOf(DatabasesOf(bs), w.database);
        AddToExisting(bs, w, k);
        SpecJoin(ws, request, k);
      } else {
        SpecNewBatch(ws, request);
      }
    }
  }

  /** A widget is in the batch of database `db` exactly when it is scheduled there. */
  lemma {:induction false} ScheduledOnMembers(ws: seq<Widget>, request: string, db: string)
    ensures forall w :: w in ScheduledOn(ws, request, db) <==> w in ws && Scheduled(w, request) && w.database == db
  {
    if |ws| > 0 {
      var p := ws[..|ws| - 1];
      ScheduledOnMembers(p, request, db);
      assert ws == p + [ws[|ws| - 1]];
    }
  }

  /** A database has a batch exactly when some scheduled widget names it. */
  lemma {:induction false} ScheduledDatabasesMembers(ws: seq<Widget>, request: string)
    ensures forall db :: db in ScheduledDatabases(ws, request) <==> exists w :: w in ws && Scheduled(w, request) && w.database == db
  {
    if |ws| > 0 {
      var p := ws[..|ws| - 1];
      ScheduledDatabasesMembers(p, request);
      assert ws == p + [ws[|ws| - 1]];
    }
  }

  /**
   * After grouping, every database is opened once, and a widget is created under the
   * transaction of database `db` exactly when it can be shown and names `db`.
   */
  lemma GroupedWidgets(ws: seq<Widget>, request: string)
    requires AllAccepted(ws, request)
    ensures Group(ws, request).Ok?
    ensures NoDup(DatabasesOf(Group(ws, request).value))
    ensures forall b :: b in Group(ws, request).value ==> forall w :: w in b.widgets <==> w in ws && Scheduled(w, request) && w.database == b.database
    ensures forall w :: w in ws && Scheduled(w, request) ==> exists b :: b in Group(ws, request).value && b.database == w.database
  {
    GroupIsSpec(ws, request);
    var bs := BatchesSpec(ws, request);
    ScheduledDatabasesMembers(ws, request);
    forall b | b in bs
      ensures forall w :: w in b.widgets <==> w in ws && Scheduled(w, request) && w.database == b.database
    {
      ScheduledOnMembers(ws, request, b.database);
    }
    forall w | w in ws && Scheduled(w, request)
      ensures exists b :: b in bs && b.database == w.database
    {
      var ds := DatabasesOf(bs);
      assert w.database in ds;
      var i := IndexOf(ds, w.database);
      assert bs[i] in bs;
    }
  }

  /** The databases the events open, in order. */
  function Opened(evs: seq<Event>): seq<string> {
    if |evs| == 0 then []
    else (if evs[0].Open? then [evs[0].database] else []) + Opened(evs[1..])
  }

  /** The number of transactions the events close. */
  function Closes(evs: seq<Event>): nat {
    if |evs| == 0 then 0
    else (if evs[0].Close? then 1 else 0) + Closes(evs[1..])
  }

  lemma {:induction false} EventsAppend(a: seq<Event>, b: seq<Event>)
    ensures Opened(a + b) == Opened(a) + Opened(b)
    ensures Closes(a + b) == Closes(a) + Closes(b)
  {
    if |a| > 0 {
      assert (a + b)[0] == a[0];
      assert (a + b)[1..] == a[1..] + b;
      EventsAppend(a[1..], b);
    } else {
      assert a + b == b;
    }
  }

  /** Creating widgets neither opens nor closes a transaction. */
  lemma {:induction false} OnlyCreates(evs: seq<Event>)
    requires forall k :: 0 <= k < |evs| ==> evs[k].Create?
    ensures Opened(evs) == [] && Closes(evs) == 0
  {
    if |evs| > 0 {
      OnlyCreates(evs[1..]);
    }
  }

  /** A transaction opens its own database and no other, and closes it unless a create threw. */
  lemma TransactionOpens(b: Batch)
    ensures Opened(Transaction(b).events) == [b.database]
    ensures Closes(Transaction(b).events) == if Transaction(b).failure.None? then 1 else 0
  {
    var c := Creates(b.widgets);
    OnlyCreates(c.events);
    EventsAppend([Open(b.database)], c.events);
    EventsAppend([Open(b.database)] + c.events, [Close]);
  }

  /** A batch whose create throws ends the run with its transaction open. */
  lemma RunStopsAtHead(bs: seq<Batch>)
    requires |bs| > 0 && Transaction(bs[0]).failure.Some?
    ensures Run(bs).failure.Some? && Opened(Run(bs).events) == [bs[0].database] && Closes(Run(bs).events) == 0
  {
    TransactionOpens(bs[0]);
  }

  /** A batch whose creates all succeed adds its open and its close in front of the rest of the run. */
  lemma RunPassesHead(bs: seq<Batch>)
    requires |bs| > 0 && Transaction(bs[0]).failure.None?
    ensures Run(bs).failure == Run(bs[1..]).failure
    ensures Opened(Run(bs).events) == [bs[0].database] + Opened(Run(bs[1..]).events)
    ensures Closes(Run(bs).events) == 1 + Closes(Run(bs[1..]).events)
  {
    TransactionOpens(bs[0]);
    EventsAppend(Transaction(bs[0]).events, Run(bs[1..]).events);
  }

  /** A run in which every create succeeds opens each batch's database in batch order and closes each. */
  lemma {:induction false} RunCompletes(bs: seq<Batch>)
    requires Run(bs).failure.None?
    ensures Opened(Run(bs).events) == DatabasesOf(bs) && Closes(Run(bs).events) == |bs|
  {
    if |bs| > 0 {
      if Transaction(bs[0]).failure.None? {
        RunPassesHead(bs);
        RunCompletes(bs[1..]);
        assert DatabasesOf(bs) == [bs[0].database] + DatabasesOf(bs[1..]);
      } else {
        RunStopsAtHead(bs);
      }
    }
  }

  lemma PrefixCons(d: string, ds: seq<string>, o: seq<string>)
    requires |o| <= |ds| && o == ds[..|o|]
    ensures [d] + o == ([d] + ds)[..|o| + 1]
  {
  }

  /**
   * A run in which a create throws opens the first batches' databases in batch order, up to
   * the failing batch, and leaves that last transaction open.
   */
  lemma {:induction false} RunStops(bs: seq<Batch>)
    requires Run(bs).failure.Some?
    ensures var o := Opened(Run(bs).events);
      0 < |o| <= |bs| && o == DatabasesOf(bs)[..|o|] && Closes(Run(bs).events) + 1 == |o|
  {
    if Transaction(bs[0]).failure.None? {
      RunPassesHead(bs);
      RunStops(bs[1..]);
      assert DatabasesOf(bs) == [bs[0].database] + DatabasesOf(bs[1..]);
      PrefixCons(bs[0].database, DatabasesOf(bs[1..]), Opened(Run(bs[1..]).events));
    } else {
      RunStopsAtHead(bs);
      assert DatabasesOf(bs)[..1] == [bs[0].database];
    }
  }

  /** The error a run stops with is the one a create in one of its batches threw. */
  lemma {:induction false} RunFailure(bs: seq<Batch>)
    requires Run(bs).failure.Some?
    ensures exists i, j :: 0 <= i < |bs| && 0 <= j < |bs[i].widgets| && CreateError(bs[i].widgets[j]) == Run(bs).failure
  {
    if Transaction(bs[0]).failure.None? {
      RunPassesHead(bs);
      RunFailure(bs[1..]);
      var i, j :| 0 <= i < |bs[1..]| && 0 <= j < |bs[1..][i].widgets| && CreateError(bs[1..][i].widgets[j]) == Run(bs).failure;
      assert bs[1..][i] == bs[i + 1];
    } else {
      assert Run(bs) == Transaction(bs[0]);
    }
  }

  /** The error a chart with a database throws from `create` names a parameter after the database. */
  lemma CreateErrorNames(w: Widget)
    requires Truthy(w.database) && CreateError(w).Some?
    ensures CreateError(w).value.MissingParameter?
    ensures CreateError(w).value.name in {"model", "fieldGroup", "fieldValue"}
  {
  }

  /** When every scheduled widget loads, every batch loads. */
  lemma {:induction false} GroupedLoad(ws: seq<Widget>, request: string)
    requires AllAccepted(ws, request)
    requires forall w :: w in ws && Scheduled(w, request) ==> CreateError(w).None?
    ensures Group(ws, request).Ok? && Run(Group(ws, request).value).failure.None?
  {
    GroupedWidgets(ws, request);
    var bs := Group(ws, request).value;
    forall i | 0 <= i < |bs|
      ensures BatchLoads(bs[i])
    {
      assert bs[i] in bs;
    }
  }

  /** A scheduled widget that does not load makes its batch, and so the run, fail. */
  lemma {:induction false} GroupedFails(ws: seq<Widget>, request: string, w: Widget)
    requires AllAccepted(ws, request)
    requires w in ws && Scheduled(w, request) && CreateError(w).Some?
    ensures Group(ws, request).Ok? && Run(Group(ws, request).value).failure.Some?
  {
    GroupedWidgets(ws, request);
    var bs := Group(ws, request).value;
    var b :| b in bs && b.database == w.database;
    var j :| 0 <= j < |b.widgets| && b.widgets[j] == w;
    assert !BatchLoads(b);
  }

  /** Every error the run stops with comes from a scheduled widget. */
  lemma {:induction false} GroupedFailureNames(ws: seq<Widget>, request: string)
    requires AllAccepted(ws, request)
    requires Group(ws, request).Ok? && Run(Group(ws, request).value).failure.Some?
    ensures Run(Group(ws, request).value).failure.value.MissingParameter?
    ensures Run(Group(ws, request).value).failure.value.name in {"model", "fieldGroup", "fieldValue"}
  {
    GroupedWidgets(ws, request);
    var bs := Group(ws, request).value;
    RunFailure(bs);
    var i, j :| 0 <= i < |bs| && 0 <= j < |bs[i].widgets| && CreateError(bs[i].widgets[j]) == Run(bs).failure;
    assert bs[i] in bs;
    CreateErrorNames(bs[i].widgets[j]);
  }

  /**
   * `generate` fails exactly when a displayable widget is not a chart, or a widget it
   * creates fails the parameter check of its data load; that error names the model, the
   * group fields or the value field, since a scheduled widget always has a database.
   */
  lemma GenerateFails(ws: seq<Widget>, request: string)
    ensures Generate(ws, request).failure.None? <==>
              AllAccepted(ws, request) && forall w :: w in ws && Scheduled(w, request) ==> CreateError(w).None?
    ensures AllAccepted(ws, request) && Generate(ws, request).failure.Some? ==>
              Generate(ws, request).failure.value.MissingParameter? &&
              Generate(ws, request).failure.value.name in {"model", "fieldGroup", "fieldValue"}
  {
    GroupFailsOnRejected(ws, request);
    if AllAccepted(ws, request) {
      if forall w :: w in ws && Scheduled(w, request) ==> CreateError(w).None? {
        GroupedLoad(ws, request);
      } else {
        var w :| w in ws && Scheduled(w, request) && CreateError(w).Some?;
        GroupedFails(ws, request, w);
        GroupedFailureNames(ws, request);
      }
    }
  }

  /**
   * When every create succeeds, `generate` opens one transaction per database, in order of
   * first appearance among the widgets it creates, never the same database twice, and
   * closes each.
   */
  lemma GenerateOpens(ws: seq<Widget>, request: string)
    requires AllAccepted(ws, request)
    requires forall w :: w in ws && Scheduled(w, request) ==> CreateError(w).None?
    ensures Generate(ws, request).failure.None?
    ensures Opened(Generate(ws, request).events) == Distinct(ScheduledDatabases(ws, request))
    ensures NoDup(Opened(Generate(ws, request).events))
    ensures Closes(Generate(ws, request).events) == |Opened(Generate(ws, request).events)|
  {
    GenerateFails(ws, request);
    GroupIsSpec(ws, request);
    RunCompletes(BatchesSpec(ws, request));
  }

  /**
   * When a create throws, the databases opened so far are the first ones of the full
   * order, and the transaction the failing widget was in is left open.
   */
  lemma GenerateStops(ws: seq<Widget>, request: string)
    requires AllAccepted(ws, request) && Generate(ws, request).failure.Some?
    ensures var o := Opened(Generate(ws, request).events);
      0 < |o| <= |Distinct(ScheduledDatabases(ws, request))| &&
      o == Distinct(ScheduledDatabases(ws, request))[..|o|] &&
      Closes(Generate(ws, request).events) + 1 == |o|
  {
    GroupIsSpec(ws, request);
    RunStops(BatchesSpec(ws, request));
  }
}
