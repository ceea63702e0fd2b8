/** The sales dashboard object: three per-agency tables filled by the
    loaders, the global table built by the consolidation, and the KPI
    computation over it. */
module SalesDashboard {
  import opened Wrappers
  import opened Frames
  import opened Aggregation

  class Dashboard {
    var douala: Option<Table>
    var yaounde: Option<Table>
    var garoua: Option<Table>
    var global: Option<Table>

    /** A fresh dashboard holds no table at all. */
    constructor ()
      ensures douala == None && yaounde == None && garoua == None && global == None
    {
      douala, yaounde, garoua, global := None, None, None, None;
    }

    /** Keeps the decoded Douala table, then overwrites its `Agence`
        column with "Douala"; returns the stored table. */
    method LoadDouala(t: Table) returns (r: Table)
      modifies this`douala
      ensures r == Stamp(t, Douala) && douala == Some(r)
    {
      douala := Some(t);
      douala := Some(Stamp(douala.value, Douala));
      r := douala.value;
    }

    /** Keeps the decoded Yaoundé table, then overwrites its `Agence`
        column with "Yaoundé"; returns the stored table. */
    method LoadYaounde(t: Table) returns (r: Table)
      modifies this`yaounde
      ensures r == Stamp(t, Yaounde) && yaounde == Some(r)
    {
      yaounde := Some(t);
      yaounde := Some(Stamp(yaounde.value, Yaounde));
      r := yaounde.value;
    }

    /** Keeps the decoded Garoua table, then overwrites its `Agence`
        column with "Garoua"; returns the stored table. */
    method LoadGaroua(t: Table) returns (r: Table)
      modifies this`garoua
      ensures r == Stamp(t, Garoua) && garoua == Some(r)
    {
      garoua := Some(t);
      garoua := Some(Stamp(garoua.value, Garoua));
      r := garoua.value;
    }

    /** Concatenates the three tables in loading order into the global
        table, then derives the month columns when a Date column exists.
        The global table is assigned before the dates are parsed, so a bad
        date leaves it holding the raw concatenation; when no table was
        loaded nothing is assigned. */
    method Consolidate() returns (r: Result<Table, Error>)
      modifies this`global
      ensures r == Consolidated([douala, yaounde, garoua])
      ensures Concat([douala, yaounde, garoua]).Failure? ==> global == old(global)
      ensures r.Success? ==> global == Some(r.value)
      ensures r.Failure? && Concat([douala, yaounde, garoua]).Success? ==>
        global == Some(Concat([douala, yaounde, garoua]).value)
    {
      var frames := [douala, yaounde, garoua];
      var c := Concat(frames);
      if c.Failure? {
        return Failure(c.error);
      }
      global := Some(c.value);
      if global.value.hasDate {
        var dated := AddMonths(global.value);
        if dated.Failure? {
          return Failure(dated.error);
        }
        global := Some(dated.value);
      }
      r := Success(global.value);
    }

    /** The KPIs of the current global table. */
    method ComputeKpisNow() returns (r: Result<Kpis, Error>)
      ensures r == ComputeKpis(global)
    {
      r := ComputeKpis(global);
    }
  }

  /** Asking a fresh dashboard for its KPIs gives the empty result. */
  method FreshDashboardHasNoKpis() returns (r: Result<Kpis, Error>)
    ensures r == Success(NoData)
  {
    var board := new Dashboard();
    r := board.ComputeKpisNow();
  }

  /** The application's sequence once all three files are decoded: load
      Douala, Yaoundé and Garoua, consolidate, compute the KPIs. A
      consolidation error stops the sequence. Whatever the tables hold,
      the outcome is either an error about dates or the month columns, or
      KPIs whose grand total is the three tables' totals together and whose
      per-agency rollup has one entry per non-empty table, equal to that
      table's total. */
  method RunPipeline(d: Table, y: Table, g: Table) returns (kpis: Result<Kpis, Error>)
    ensures kpis.Failure? ==> kpis.error.UnparseableDate? || kpis.error == MissingColumn("Mois")
    ensures kpis.Success? ==>
      kpis.value.Bundle? &&
      kpis.value.total == Total(d.rows) + Total(y.rows) + Total(g.rows) &&
      kpis.value.byAgency.Keys <= {Douala, Yaounde, Garoua} &&
      (Douala in kpis.value.byAgency <==> |d.rows| > 0) &&
      (Douala in kpis.value.byAgency ==> kpis.value.byAgency[Douala] == Total(d.rows)) &&
      (Yaounde in kpis.value.byAgency <==> |y.rows| > 0) &&
      (Yaounde in kpis.value.byAgency ==> kpis.value.byAgency[Yaounde] == Total(y.rows)) &&
      (Garoua in kpis.value.byAgency <==> |g.rows| > 0) &&
      (Garoua in kpis.value.byAgency ==> kpis.value.byAgency[Garoua] == Total(g.rows))
    ensures !d.hasDate && !y.hasDate && !g.hasDate && !d.hasMonth && !y.hasMonth && !g.hasMonth ==>
      kpis == Failure(MissingColumn("Mois"))
    ensures kpis.Success? <==>
      DatesParse(d.rows) && DatesParse(y.rows) && DatesParse(g.rows) &&
      (d.hasDate || y.hasDate || g.hasDate || d.hasMonth || y.hasMonth || g.hasMonth)
  {
    var board := new Dashboard();
    var sd := board.LoadDouala(d);
    var sy := board.LoadYaounde(y);
    var sg := board.LoadGaroua(g);
    var consolidated := board.Consolidate();
    ghost var c := GlobalOf(d, y, g);
    assert consolidated == c;
    ConsolidatedKpis(d, y, g);
    if !d.hasDate && !y.hasDate && !g.hasDate {
      NoDateNoMonths(sd, sy, sg);
    }
    if consolidated.Failure? {
      return Failure(consolidated.error);
    }
    kpis := board.ComputeKpisNow();
    assert kpis == ComputeKpis(Some(c.value));
  }

  /** Consolidating and computing the KPIs a second time on the same loaded
      dashboard gives the same KPIs: the consolidation reads only the three
      source tables, which it leaves as they are. */
  method RerunIsStable(d: Table, y: Table, g: Table) returns (first: Result<Kpis, Error>, second: Result<Kpis, Error>)
    ensures first == second
  {
    var board := new Dashboard();
    var _ := board.LoadDouala(d);
    var _ := board.LoadYaounde(y);
    var _ := board.LoadGaroua(g);
    var c1 := board.Consolidate();
    first := board.ComputeKpisNow();
    var c2 := board.Consolidate();
    second := board.ComputeKpisNow();
  }
}
