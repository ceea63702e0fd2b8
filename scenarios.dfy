/** Worked examples of the KPIs on small tables. */
module Scenarios {
  import opened Wrappers
  import opened Frames
  import opened Rollups
  import opened Aggregation

  /** Douala has two sales of 400 and 600, Yaoundé one of 500 and Garoua
      one of 250, with a Date column whose cells all parse: the grand total
      is 1750 and the per-agency rollup is
      {Douala: 1000, Yaoundé: 500, Garoua: 250}. */
  lemma ThreeAgenciesScenario(d: Table, y: Table, g: Table)
    requires d.hasDate && DatesParse(d.rows) && DatesParse(y.rows) && DatesParse(g.rows)
    requires |d.rows| == 2 && d.rows[0].montant == 400 && d.rows[1].montant == 600
    requires |y.rows| == 1 && y.rows[0].montant == 500
    requires |g.rows| == 1 && g.rows[0].montant == 250
    ensures GlobalOf(d, y, g).Success?
    ensures var k := ComputeKpis(Some(GlobalOf(d, y, g).value));
      k.Success? && k.value.Bundle? && k.value.total == 1750 &&
      k.value.byAgency.Keys == {Douala, Yaounde, Garoua} &&
      k.value.byAgency[Douala] == 1000 && k.value.byAgency[Yaounde] == 500 && k.value.byAgency[Garoua] == 250
  {
    assert Total(d.rows) == 1000 by {
      assert d.rows[1..][1..] == [];
    }
    assert Total(y.rows) == 500 by {
      assert y.rows[1..] == [];
    }
    assert Total(g.rows) == 250 by {
      assert g.rows[1..] == [];
    }
    ghost var sd, sy, sg := Stamp(d, Douala), Stamp(y, Yaounde), Stamp(g, Garoua);
    StampKeepsDates(d, Douala);
    StampKeepsDates(y, Yaounde);
    StampKeepsDates(g, Garoua);
    ConsolidatedSucceeds(sd, sy, sg);
    DatedMonthsDerived(sd, sy, sg);
    ConsolidatedAgencyTotals(d, y, g);
    AgencyLabelsDistinct();
  }

  /** The same three tables consolidate to a global table of four rows. */
  lemma ThreeAgenciesRowCount(d: Table, y: Table, g: Table)
    requires DatesParse(d.rows) && DatesParse(y.rows) && DatesParse(g.rows)
    requires |d.rows| == 2 && |y.rows| == 1 && |g.rows| == 1
    ensures GlobalOf(d, y, g).Success? && |GlobalOf(d, y, g).value.rows| == 4
  {
    ConsolidatedKpis(d, y, g);
    ConsolidatedLaidOut(d, y, g);
  }

  /** Two sales of seller X at agency A, of 100 and 200: the per-seller
      rollup holds 300 for (A, X) and nothing else. */
  lemma SameSellerScenario()
    ensures var rows := [Row("A", Some("X"), 100, None, None, None), Row("A", Some("X"), 200, None, None, None)];
      GroupSum(rows, SellerKey) == map[("A", "X") := 300]
  {
    var rows := [Row("A", Some("X"), 100, None, None, None), Row("A", Some("X"), 200, None, None, None)];
    GroupSumSpec(rows, SellerKey);
    MatchingAllOrNone(rows, SellerKey, ("A", "X"));
    assert Total(rows) == 300;
  }
}
