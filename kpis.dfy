/** The KPI computation over the global table: the grand total of
    `Montant` and its group-by-sums per agency, per (agency, seller) and
    per (month number, month name). */
module Aggregation {
  import opened Wrappers
  import opened Frames
  import opened Rollups

  /** Grouping keys; a null cell in any key column drops the row. */
  function AgencyKey(r: Row): Option<string> {
    Some(r.agence)
  }

  function SellerKey(r: Row): Option<(string, string)> {
    if r.vendeur.Some? then Some((r.agence, r.vendeur.value)) else None
  }

  function MonthKey(r: Row): Option<(int, string)> {
    if r.mois.Some? && r.moisNom.Some? then Some((r.mois.value, r.moisNom.value)) else None
  }

  /** The sellers of one agency, keyed by seller alone. */
  function SellerIn(agency: string): Row -> Option<string> {
    (r: Row) => if r.agence == agency then r.vendeur else None
  }

  /** The KPI bundle; `NoData` is the empty result given when there is no
      global table yet. */
  datatype Kpis =
    | NoData
    | Bundle(
        total: int,
        byAgency: map<string, int>,
        bySeller: map<(string, string), int>,
        byMonth: map<(int, string), int>)

  /** The distinct agency labels of the rows. */
  function Agencies(rows: seq<Row>): set<string> {
    set r | r in rows :: r.agence
  }

  lemma AgencyKeys(rows: seq<Row>)
    ensures KeysPresent(rows, AgencyKey) == Agencies(rows)
  {
    forall a
      ensures a in KeysPresent(rows, AgencyKey) <==> a in Agencies(rows)
    {
      MatchingNonEmpty(rows, AgencyKey, a);
      if a in Agencies(rows) {
        var r :| r in rows && r.agence == a;
        var i :| 0 <= i < |rows| && rows[i] == r;
        assert AgencyKey(rows[i]) == Some(a);
      }
    }
  }

  lemma AgencySum(rows: seq<Row>)
    ensures MapSum(GroupSum(rows, AgencyKey)) == Total(rows)
  {
    GroupSumTotal(rows, AgencyKey);
    assert forall r :: r in rows ==> AgencyKey(r).Some?;
  }

  /** The per-agency rollup has one entry per agency present (none for an
      absent agency), each the total of that agency's rows, and its values
      add up to the grand total. */
  lemma AgencyRollup(rows: seq<Row>)
    ensures GroupSum(rows, AgencyKey).Keys == Agencies(rows)
    ensures forall a :: a in GroupSum(rows, AgencyKey) ==>
      GroupSum(rows, AgencyKey)[a] == Total(Matching(rows, AgencyKey, a))
    ensures MapSum(GroupSum(rows, AgencyKey)) == Total(rows)
  {
    GroupSumSpec(rows, AgencyKey);
    AgencyKeys(rows);
    AgencySum(rows);
  }

  /** The sellers' part of one agency in the (agency, seller) rollup. */
  function SellersOf(m: map<(string, string), int>, agency: string): (s: map<string, int>)
    ensures forall v :: v in s <==> (agency, v) in m
    ensures forall v :: v in s ==> s[v] == m[(agency, v)]
  {
    map p | p in m && p.0 == agency :: p.1 := m[p]
  }

  /** The sellers' part of an agency is the per-seller rollup of that
      agency's rows. */
  lemma SellersOfIsGroupSum(rows: seq<Row>, agency: string)
    ensures SellersOf(GroupSum(rows, SellerKey), agency) == GroupSum(rows, SellerIn(agency))
  {
    var left := SellersOf(GroupSum(rows, SellerKey), agency);
    var right := GroupSum(rows, SellerIn(agency));
    forall v
      ensures (v in left <==> v in right) && (v in left ==> left[v] == right[v])
    {
      SellerEntry(rows, agency, v);
    }
  }

  /** The (agency, seller) entry of the per-seller rollup is the seller's
      entry in the rollup of the agency's rows. */
  lemma SellerEntry(rows: seq<Row>, agency: string, v: string)
    ensures var m, n := GroupSum(rows, SellerKey), GroupSum(rows, SellerIn(agency));
      ((agency, v) in m <==> v in n) && ((agency, v) in m ==> m[(agency, v)] == n[v])
  {
    var key := SellerIn(agency);
    GroupSumSpec(rows, SellerKey);
    GroupSumSpec(rows, key);
    assert forall r :: r in rows ==> (SellerKey(r) == Some((agency, v)) <==> key(r) == Some(v));
    MatchingSameRows(rows, SellerKey, (agency, v), key, v);
  }

  /** When no row has a null seller, the sellers' amounts of an agency add
      up to that agency's amount. */
  lemma SellerRollupSplitsAgency(rows: seq<Row>, agency: string)
    requires forall i :: 0 <= i < |rows| ==> rows[i].vendeur.Some?
    requires agency in GroupSum(rows, AgencyKey)
    ensures MapSum(SellersOf(GroupSum(rows, SellerKey), agency)) == GroupSum(rows, AgencyKey)[agency]
  {
    SellersOfIsGroupSum(rows, agency);
    GroupSumTotal(rows, SellerIn(agency));
    SellerKeyedRows(rows, agency);
    AgencyEntry(rows, agency);
  }

  /** With no null seller, the rows the per-seller rollup of an agency
      groups are that agency's rows. */
  lemma SellerKeyedRows(rows: seq<Row>, agency: string)
    requires forall i :: 0 <= i < |rows| ==> rows[i].vendeur.Some?
    ensures Keyed(rows, SellerIn(agency)) == Matching(rows, AgencyKey, agency)
  {
    var key := SellerIn(agency);
    forall r | r in rows ensures key(r).Some? <==> AgencyKey(r) == Some(agency) {
      var i :| 0 <= i < |rows| && rows[i] == r;
    }
    KeyedSameRows(rows, key, AgencyKey, agency);
  }

  /** On rows whose month columns come from their dates, every key of the
      month rollup pairs a month number 1..12 with its own name, and the
      rollup adds up to the total of the dated rows — the grand total when
      every row is dated. */
  lemma MonthRollup(rows: seq<Row>)
    requires forall i :: 0 <= i < |rows| ==> MonthsFromDate(rows[i])
    ensures forall p :: p in GroupSum(rows, MonthKey) ==> 1 <= p.0 <= 12 && p.1 == MonthName(p.0)
    ensures (forall i :: 0 <= i < |rows| ==> rows[i].date.Some?) ==>
      MapSum(GroupSum(rows, MonthKey)) == Total(rows)
  {
    MonthKeysNamed(rows);
    if forall i :: 0 <= i < |rows| ==> rows[i].date.Some? {
      MonthSum(rows);
    }
  }

  lemma MonthKeysNamed(rows: seq<Row>)
    requires forall i :: 0 <= i < |rows| ==> MonthsFromDate(rows[i])
    ensures forall p :: p in GroupSum(rows, MonthKey) ==> 1 <= p.0 <= 12 && p.1 == MonthName(p.0)
  {
    GroupSumSpec(rows, MonthKey);
    forall p | p in GroupSum(rows, MonthKey)
      ensures 1 <= p.0 <= 12 && p.1 == MonthName(p.0)
    {
      MonthKeyNamed(rows, p);
    }
  }

  lemma MonthKeyNamed(rows: seq<Row>, p: (int, string))
    requires forall i :: 0 <= i < |rows| ==> MonthsFromDate(rows[i])
    requires Matching(rows, MonthKey, p) != []
    ensures 1 <= p.0 <= 12 && p.1 == MonthName(p.0)
  {
    MatchingNonEmpty(rows, MonthKey, p);
    var i :| 0 <= i < |rows| && MonthKey(rows[i]) == Some(p);
    assert MonthsFromDate(rows[i]);
  }

  lemma MonthSum(rows: seq<Row>)
    requires forall i :: 0 <= i < |rows| ==> MonthsFromDate(rows[i]) && rows[i].date.Some?
    ensures MapSum(GroupSum(rows, MonthKey)) == Total(rows)
  {
    GroupSumTotal(rows, MonthKey);
    forall r | r in rows ensures MonthKey(r).Some? {
      var i :| 0 <= i < |rows| && rows[i] == r;
      assert MonthsFromDate(rows[i]);
    }
  }

  /** The KPIs of the global table: the empty result when there is none;
      a missing-column error when it lacks the month columns (the month
      rollup is the only one whose columns can be absent); otherwise the
      grand total and the three rollups, each with one entry per key some
      row carries, equal to the total of that key's rows; the per-agency
      amounts add up to the grand total. */
  function ComputeKpis(global: Option<Table>): (r: Result<Kpis, Error>)
    ensures global.None? ==> r == Success(NoData)
    ensures global.Some? && !global.value.hasMonth ==> r == Failure(MissingColumn("Mois"))
    ensures global.Some? && global.value.hasMonth ==>
      r.Success? && r.value.Bundle? &&
      r.value.total == Total(global.value.rows) &&
      r.value.byAgency.Keys == Agencies(global.value.rows) &&
      (forall a :: a in r.value.byAgency ==>
        r.value.byAgency[a] == Total(Matching(global.value.rows, AgencyKey, a))) &&
      MapSum(r.value.byAgency) == r.value.total
    ensures global.Some? && global.value.hasMonth ==>
      r.Success? && r.value.Bundle? &&
      r.value.bySeller.Keys == KeysPresent(global.value.rows, SellerKey) &&
      (forall k :: k in r.value.bySeller ==>
        r.value.bySeller[k] == Total(Matching(global.value.rows, SellerKey, k)))
    ensures global.Some? && global.value.hasMonth ==>
      r.Success? && r.value.Bundle? &&
      r.value.byMonth.Keys == KeysPresent(global.value.rows, MonthKey) &&
      (forall k :: k in r.value.byMonth ==>
        r.value.byMonth[k] == Total(Matching(global.value.rows, MonthKey, k)))
  {
    match global
    case None => Success(NoData)
    case Some(t) =>
      if !t.hasMonth then Failure(MissingColumn("Mois"))
      else
        AgencyRollup(t.rows);
        GroupSumSpec(t.rows, SellerKey);
        GroupSumSpec(t.rows, MonthKey);
        Success(Bundle(
          Total(t.rows),
          GroupSum(t.rows, AgencyKey),
          GroupSum(t.rows, SellerKey),
          GroupSum(t.rows, MonthKey)))
  }

  // ---------------------------------------------------------------------
  // From the three loaded tables to the per-agency rollup.

  /** Rows of one agency that match `source` amount for amount. */
  predicate BlockOf(block: seq<Row>, agency: string, source: seq<Row>) {
    |block| == |source| &&
    forall i :: 0 <= i < |block| ==> block[i].agence == agency && block[i].montant == source[i].montant
  }

  /** Every row of a block matches its agency and no other. */
  lemma BlockMatching(block: seq<Row>, agency: string, source: seq<Row>, other: string)
    requires BlockOf(block, agency, source)
    ensures Matching(block, AgencyKey, agency) == block
    ensures other != agency ==> Matching(block, AgencyKey, other) == []
    ensures Total(block) == Total(source)
  {
    MatchingAllOrNone(block, AgencyKey, agency);
    MatchingAllOrNone(block, AgencyKey, other);
    TotalOfSameAmounts(block, source);
  }

  /** The rollup entry of an agency is the total of the rows matching it,
      present exactly when some row does. */
  lemma AgencyEntry(rows: seq<Row>, agency: string)
    ensures var m := GroupSum(rows, AgencyKey); var s := Matching(rows, AgencyKey, agency);
      (agency in m <==> s != []) && (agency in m ==> m[agency] == Total(s))
  {
    GroupSumSpec(rows, AgencyKey);
  }

  /** A block of one agency between rows of other agencies: its rollup
      entry is present exactly when the block is not empty, and is the
      total of the block's source rows. */
  lemma BlockEntry(pre: seq<Row>, block: seq<Row>, post: seq<Row>, agency: string, source: seq<Row>)
    requires BlockOf(block, agency, source)
    requires Avoids(pre, agency) && Avoids(post, agency)
    ensures var m := GroupSum(pre + block + post, AgencyKey);
      (agency in m <==> |source| > 0) && (agency in m ==> m[agency] == Total(source))
  {
    assert Matching(pre + block + post, AgencyKey, agency) == block && Total(block) == Total(source) by {
      MatchingThree(pre, block, post, agency);
      MatchingAllOrNone(pre, AgencyKey, agency);
      MatchingAllOrNone(post, AgencyKey, agency);
      BlockMatching(block, agency, source, agency);
      assert [] + block + [] == block;
    }
    AgencyEntry(pre + block + post, agency);
  }

  /** No row carries the agency. */
  predicate Avoids(rows: seq<Row>, agency: string) {
    forall i :: 0 <= i < |rows| ==> rows[i].agence != agency
  }

  lemma BlockAvoids(block: seq<Row>, owner: string, source: seq<Row>, agency: string)
    requires BlockOf(block, owner, source) && owner != agency
    ensures Avoids(block, agency)
  {
  }

  lemma AvoidsAppend(a: seq<Row>, b: seq<Row>, agency: string)
    requires Avoids(a, agency) && Avoids(b, agency)
    ensures Avoids(a + b, agency)
  {
    forall i | 0 <= i < |a + b| ensures (a + b)[i].agence != agency {
      if i >= |a| {
        assert (a + b)[i] == b[i - |a|];
      }
    }
  }

  /** In a Douala block, a Yaoundé block and a Garoua block, the rollup
      entry of each agency is that of its own block. */
  lemma DoualaBlockEntry(da: seq<Row>, ya: seq<Row>, ga: seq<Row>, a: seq<Row>, b: seq<Row>, c: seq<Row>)
    requires BlockOf(da, Douala, a) && BlockOf(ya, Yaounde, b) && BlockOf(ga, Garoua, c)
    ensures var m := GroupSum(da + ya + ga, AgencyKey);
      (Douala in m <==> |a| > 0) && (Douala in m ==> m[Douala] == Total(a))
  {
    AgencyLabelsDistinct();
    BlockAvoids(ya, Yaounde, b, Douala);
    BlockAvoids(ga, Garoua, c, Douala);
    AvoidsAppend(ya, ga, Douala);
    assert [] + da + (ya + ga) == da + ya + ga;
    BlockEntry([], da, ya + ga, Douala, a);
  }

  lemma YaoundeBlockEntry(da: seq<Row>, ya: seq<Row>, ga: seq<Row>, a: seq<Row>, b: seq<Row>, c: seq<Row>)
    requires BlockOf(da, Douala, a) && BlockOf(ya, Yaounde, b) && BlockOf(ga, Garoua, c)
    ensures var m := GroupSum(da + ya + ga, AgencyKey);
      (Yaounde in m <==> |b| > 0) && (Yaounde in m ==> m[Yaounde] == Total(b))
  {
    AgencyLabelsDistinct();
    BlockAvoids(da, Douala, a, Yaounde);
    BlockAvoids(ga, Garoua, c, Yaounde);
    BlockEntry(da, ya, ga, Yaounde, b);
  }

  lemma GarouaBlockEntry(da: seq<Row>, ya: seq<Row>, ga: seq<Row>, a: seq<Row>, b: seq<Row>, c: seq<Row>)
    requires BlockOf(da, Douala, a) && BlockOf(ya, Yaounde, b) && BlockOf(ga, Garoua, c)
    ensures var m := GroupSum(da + ya + ga, AgencyKey);
      (Garoua in m <==> |c| > 0) && (Garoua in m ==> m[Garoua] == Total(c))
  {
    AgencyLabelsDistinct();
    BlockAvoids(da, Douala, a, Garoua);
    BlockAvoids(ya, Yaounde, b, Garoua);
    AvoidsAppend(da, ya, Garoua);
    assert da + ya + ga + [] == da + ya + ga;
    BlockEntry(da + ya, ga, [], Garoua, c);
  }

  /** The rollup of the three blocks has no agency but the three. */
  lemma BlocksKeys(da: seq<Row>, ya: seq<Row>, ga: seq<Row>, a: seq<Row>, b: seq<Row>, c: seq<Row>)
    requires BlockOf(da, Douala, a) && BlockOf(ya, Yaounde, b) && BlockOf(ga, Garoua, c)
    ensures GroupSum(da + ya + ga, AgencyKey).Keys <= {Douala, Yaounde, Garoua}
  {
    var rows := da + ya + ga;
    assert forall i :: 0 <= i < |rows| ==> rows[i].agence in {Douala, Yaounde, Garoua};
    AgencyKeysWithin(rows, {Douala, Yaounde, Garoua});
  }

  /** A table made of a Douala block, a Yaoundé block and a Garoua block,
      amount for amount the rows `a`, `b` and `c`: its per-agency rollup
      has an entry for exactly the non-empty blocks, each the block's
      total. */
  lemma AgencyTotalsOfBlocks(da: seq<Row>, ya: seq<Row>, ga: seq<Row>, a: seq<Row>, b: seq<Row>, c: seq<Row>)
    requires BlockOf(da, Douala, a) && BlockOf(ya, Yaounde, b) && BlockOf(ga, Garoua, c)
    ensures var m := GroupSum(da + ya + ga, AgencyKey);
      m.Keys <= {Douala, Yaounde, Garoua} &&
      (Douala in m <==> |a| > 0) && (Douala in m ==> m[Douala] == Total(a)) &&
      (Yaounde in m <==> |b| > 0) && (Yaounde in m ==> m[Yaounde] == Total(b)) &&
      (Garoua in m <==> |c| > 0) && (Garoua in m ==> m[Garoua] == Total(c))
  {
    BlocksKeys(da, ya, ga, a, b, c);
    DoualaBlockEntry(da, ya, ga, a, b, c);
    YaoundeBlockEntry(da, ya, ga, a, b, c);
    GarouaBlockEntry(da, ya, ga, a, b, c);
  }

  lemma MatchingThree(da: seq<Row>, ya: seq<Row>, ga: seq<Row>, agency: string)
    ensures Matching(da + ya + ga, AgencyKey, agency) ==
      Matching(da, AgencyKey, agency) + Matching(ya, AgencyKey, agency) + Matching(ga, AgencyKey, agency)
  {
    MatchingAppend(da + ya, ga, AgencyKey, agency);
    MatchingAppend(da, ya, AgencyKey, agency);
  }

  /** The rollup has no agency the rows do not carry. */
  lemma AgencyKeysWithin(rows: seq<Row>, labels: set<string>)
    requires forall i :: 0 <= i < |rows| ==> rows[i].agence in labels
    ensures GroupSum(rows, AgencyKey).Keys <= labels
  {
    GroupSumSpec(rows, AgencyKey);
    AgencyKeys(rows);
    forall x | x in Agencies(rows) ensures x in labels {
      var r :| r in rows && r.agence == x;
      var i :| 0 <= i < |rows| && rows[i] == r;
    }
  }

  /** Rows laid out as the consolidation lays them out: first the rows of
      `a` stamped Douala, then those of `b` stamped Yaoundé, then those of
      `c` stamped Garoua, amounts unchanged. */
  predicate LaidOut(rows: seq<Row>, a: seq<Row>, b: seq<Row>, c: seq<Row>) {
    |rows| == |a| + |b| + |c| &&
    forall i :: 0 <= i < |rows| ==>
      rows[i].montant == (a + b + c)[i].montant &&
      (i < |a| ==> rows[i].agence == Douala) &&
      (|a| <= i < |a| + |b| ==> rows[i].agence == Yaounde) &&
      (|a| + |b| <= i ==> rows[i].agence == Garoua)
  }

  /** A successful consolidation of the three stamped tables lays their
      rows out in loading order. */
  lemma ConsolidatedLaidOut(d0: Table, y0: Table, g0: Table)
    ensures var r := GlobalOf(d0, y0, g0);
      r.Success? ==> LaidOut(r.value.rows, d0.rows, y0.rows, g0.rows)
  {
    var d, y, g := Stamp(d0, Douala), Stamp(y0, Yaounde), Stamp(g0, Garoua);
    var r := Consolidated([Some(d), Some(y), Some(g)]);
    ConsolidatedLossless(d, y, g);
    ConsolidatedAgencies(d0, y0, g0);
    if r.Success? {
      var rows, all, src := r.value.rows, d.rows + y.rows + g.rows, d0.rows + y0.rows + g0.rows;
      forall i | 0 <= i < |rows| ensures rows[i].montant == src[i].montant {
        if i < |d0.rows| {
          assert all[i] == d.rows[i] && src[i] == d0.rows[i];
        } else if i < |d0.rows| + |y0.rows| {
          var j := i - |d0.rows|;
          assert all[i] == y.rows[j] && src[i] == y0.rows[j];
        } else {
          var j := i - |d0.rows| - |y0.rows|;
          assert all[i] == g.rows[j] && src[i] == g0.rows[j];
        }
      }
    }
  }

  /** Rows laid out in order split into one block per agency. */
  lemma LaidOutBlocks(rows: seq<Row>, a: seq<Row>, b: seq<Row>, c: seq<Row>)
    requires LaidOut(rows, a, b, c)
    ensures rows == rows[..|a|] + rows[|a|..|a| + |b|] + rows[|a| + |b|..]
    ensures BlockOf(rows[..|a|], Douala, a)
    ensures BlockOf(rows[|a|..|a| + |b|], Yaounde, b)
    ensures BlockOf(rows[|a| + |b|..], Garoua, c)
  {
    var n1, n2, all := |a|, |a| + |b|, a + b + c;
    assert rows == rows[..n1] + rows[n1..n2] + rows[n2..];
    assert all[0..n1] == a && all[n1..n2] == b && all[n2..|rows|] == c;
    assert rows[..n1] == rows[0..n1] && rows[n2..] == rows[n2..|rows|];
    SliceIsBlock(rows, all, 0, n1, Douala);
    SliceIsBlock(rows, all, n1, n2, Yaounde);
    SliceIsBlock(rows, all, n2, |rows|, Garoua);
  }

  /** A stretch of rows of one agency, amount for amount a stretch of
      `all`, is a block of that agency. */
  lemma SliceIsBlock(rows: seq<Row>, all: seq<Row>, lo: int, hi: int, agency: string)
    requires |rows| == |all| && 0 <= lo <= hi <= |rows|
    requires forall i :: 0 <= i < |rows| ==> rows[i].montant == all[i].montant
    requires forall i :: lo <= i < hi ==> rows[i].agence == agency
    ensures BlockOf(rows[lo..hi], agency, all[lo..hi])
  {
    forall i | 0 <= i < hi - lo
      ensures rows[lo..hi][i].agence == agency && rows[lo..hi][i].montant == all[lo..hi][i].montant
    {
      assert rows[lo..hi][i] == rows[lo + i] && all[lo..hi][i] == all[lo + i];
    }
  }

  /** Rows laid out in order total the three sources' totals. */
  lemma LaidOutTotal(rows: seq<Row>, a: seq<Row>, b: seq<Row>, c: seq<Row>)
    requires LaidOut(rows, a, b, c)
    ensures Total(rows) == Total(a) + Total(b) + Total(c)
  {
    TotalOfSameAmounts(rows, a + b + c);
    TotalAppend(a + b, c);
    TotalAppend(a, b);
  }

  /** After the three loaders and a successful consolidation, the
      per-agency rollup has an entry for exactly the agencies whose table
      has rows, each equal to the total of that table, and the grand total
      is the sum of the three tables' totals. */
  lemma ConsolidatedAgencyTotals(d0: Table, y0: Table, g0: Table)
    requires GlobalOf(d0, y0, g0).Success?
    ensures var rows := GlobalOf(d0, y0, g0).value.rows;
      var m := GroupSum(rows, AgencyKey);
      Total(rows) == Total(d0.rows) + Total(y0.rows) + Total(g0.rows) &&
      m.Keys <= {Douala, Yaounde, Garoua} &&
      (Douala in m <==> |d0.rows| > 0) && (Douala in m ==> m[Douala] == Total(d0.rows)) &&
      (Yaounde in m <==> |y0.rows| > 0) && (Yaounde in m ==> m[Yaounde] == Total(y0.rows)) &&
      (Garoua in m <==> |g0.rows| > 0) && (Garoua in m ==> m[Garoua] == Total(g0.rows))
  {
    var rows := GlobalOf(d0, y0, g0).value.rows;
    var a, b, c := d0.rows, y0.rows, g0.rows;
    ConsolidatedLaidOut(d0, y0, g0);
    LaidOutTotal(rows, a, b, c);
    LaidOutBlocks(rows, a, b, c);
    AgencyTotalsOfBlocks(rows[..|a|], rows[|a|..|a| + |b|], rows[|a| + |b|..], a, b, c);
  }

  /** The KPIs of the three stamped and consolidated tables: consolidation
      fails exactly when a Date cell does not parse; the KPI computation
      fails only for want of the month columns, which happens exactly when
      no table has a Date or month column; otherwise the grand total and
      per-agency entries are those of the three tables. */
  lemma ConsolidatedKpis(d0: Table, y0: Table, g0: Table)
    ensures var c := GlobalOf(d0, y0, g0);
      (c.Success? <==> DatesParse(d0.rows) && DatesParse(y0.rows) && DatesParse(g0.rows)) &&
      (c.Failure? ==> c.error.UnparseableDate?) &&
      (c.Success? ==> var k := ComputeKpis(Some(c.value));
        (k.Failure? ==> k.error == MissingColumn("Mois")) &&
        (k.Success? ==>
          k.value.Bundle? &&
          k.value.total == Total(d0.rows) + Total(y0.rows) + Total(g0.rows) &&
          k.value.byAgency.Keys <= {Douala, Yaounde, Garoua} &&
          (Douala in k.value.byAgency <==> |d0.rows| > 0) &&
          (Douala in k.value.byAgency ==> k.value.byAgency[Douala] == Total(d0.rows)) &&
          (Yaounde in k.value.byAgency <==> |y0.rows| > 0) &&
          (Yaounde in k.value.byAgency ==> k.value.byAgency[Yaounde] == Total(y0.rows)) &&
          (Garoua in k.value.byAgency <==> |g0.rows| > 0) &&
          (Garoua in k.value.byAgency ==> k.value.byAgency[Garoua] == Total(g0.rows))) &&
        (k.Success? <==> d0.hasDate || y0.hasDate || g0.hasDate || d0.hasMonth || y0.hasMonth || g0.hasMonth))
  {
    var d, y, g := Stamp(d0, Douala), Stamp(y0, Yaounde), Stamp(g0, Garoua);
    var c := Consolidated([Some(d), Some(y), Some(g)]);
    ConsolidatedLossless(d, y, g);
    ConsolidatedSucceeds(d, y, g);
    StampKeepsDates(d0, Douala);
    StampKeepsDates(y0, Yaounde);
    StampKeepsDates(g0, Garoua);
    if c.Success? {
      ConsolidatedAgencyTotals(d0, y0, g0);
      if !d.hasDate && !y.hasDate && !g.hasDate {
        NoDateNoMonths(d, y, g);
      } else {
        DatedMonthsDerived(d, y, g);
      }
    }
  }
}
