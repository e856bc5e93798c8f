/**
 Concrete inputs that pin down the edge cases of the yields page: strict TVL
 bounds, the inclusive million-dollar toggle, the string comparison of the
 audited toggle, and the wording of the empty-table message.
 */
module Scenarios {
  import opened Seqs
  import opened YieldsPage

  /** A pool that differs from the others only in its chain, TVL and audit count. */
  function Sample(chain: string, tvl: real, audits: string): Pool {
    Pool("id", "USDC", "aave", "Aave", chain, tvl, 1.0, 0.0, 0.0, true, "no", "single", audits,
         Prediction("Stable/Up", 2))
  }

  /** A row that differs from the others only in its TVL. */
  function RowWithTvl(tvl: real): Row {
    ToRow(Sample("Ethereum", tvl, "1"))
  }

  /** min=100 and max=1000 over TVLs 100, 500, 1000 and 1001 keep only 500: both bounds are strict. */
  lemma TvlBoundsAreStrict()
    ensures ByTvl([RowWithTvl(100.0), RowWithTvl(500.0), RowWithTvl(1000.0), RowWithTvl(1001.0)],
                  Numeric("100", 100.0), Numeric("1000", 1000.0))
         == [RowWithTvl(500.0)]
  {
    var rows := [RowWithTvl(100.0), RowWithTvl(500.0), RowWithTvl(1000.0), RowWithTvl(1001.0)];
    var keep := (x: Row) => WithinBounds(Numeric("100", 100.0), Numeric("1000", 1000.0), x.tvl);
    assert Filter(rows[3..], keep) == [] by {
      assert rows[3..][1..] == [];
    }
    assert Filter(rows[2..], keep) == [] by {
      assert rows[2..][1..] == rows[3..];
    }
    assert Filter(rows[1..], keep) == [RowWithTvl(500.0)] by {
      assert rows[1..][1..] == rows[2..];
    }
  }

  /** A minimum that is not a number drops every row once the maximum is numeric. */
  lemma NaNBoundEmptiesTable(rows: seq<Row>)
    ensures ByTvl(rows, NotANumber("abc"), Numeric("1000", 1000.0)) == []
  {
  }

  /** Two unusable bounds switch the range filter off. */
  lemma UnusableBoundsAreIgnored(rows: seq<Row>)
    ensures ByTvl(rows, NotANumber("abc"), Absent) == rows
    ensures ByTvl(rows, Absent, Absent) == rows
  {
  }

  /** The million-dollar toggle keeps a pool holding exactly 1e6. */
  lemma MillionIsInclusive()
    ensures Stage(true, HoldsAMillion, [Sample("Ethereum", 1000000.0, "1"), Sample("Ethereum", 999999.0, "1")])
         == [Sample("Ethereum", 1000000.0, "1")]
  {
  }

  /** The audited toggle compares strings: "00" is kept, only "0" is dropped. */
  lemma AuditedComparesStrings()
    ensures Stage(true, IsAudited, [Sample("Ethereum", 1.0, "0"), Sample("Ethereum", 1.0, "1"),
                                    Sample("Ethereum", 1.0, "00"), Sample("Ethereum", 1.0, "2")])
         == [Sample("Ethereum", 1.0, "1"), Sample("Ethereum", 1.0, "00"), Sample("Ethereum", 1.0, "2")]
  {
  }

  /** The empty-table message names a label when there is one. */
  lemma EmptyMessageWording()
    ensures EmptyMessage(Some("Ethereum")) == "Ethereum has no pools listed"
    ensures EmptyMessage(None) == "Couldn't find any pools for these filters"
    ensures EmptyMessage(Some("")) == "Couldn't find any pools for these filters"
  {
    assert Truthy(Some("Ethereum"));
  }

  /** Pools on one chain give that chain as the label, pools on two give "All". */
  lemma SelectedTabExamples()
    ensures SelectedTab([Sample("Ethereum", 1.0, "1"), Sample("Ethereum", 2.0, "1")]) == Some("Ethereum")
    ensures SelectedTab([Sample("Ethereum", 1.0, "1"), Sample("Polygon", 2.0, "1")]) == Some("All")
    ensures SelectedTab([]) == None
  {
    var two := [Sample("Ethereum", 1.0, "1"), Sample("Polygon", 2.0, "1")];
    assert two[0].chain != two[1].chain;
  }

  /**
   The label for a `chain` query comes from the pools before the toggles run:
   a toggle that leaves only Ethereum pools still leaves the label "All".
   */
  lemma LabelSeesUnfilteredPools()
    ensures var pools := [Sample("Ethereum", 1.0, "1"), Sample("Polygon", 2.0, "0")];
            var toggles := Toggles(false, false, false, false, true);
            && Filter(pools, (p: Pool) => Admitted(toggles, p)) == [Sample("Ethereum", 1.0, "1")]
            && SelectedTab(pools) == Some("All")
            && SelectedTab(Filter(pools, (p: Pool) => Admitted(toggles, p))) == Some("Ethereum")
  {
    var pools := [Sample("Ethereum", 1.0, "1"), Sample("Polygon", 2.0, "0")];
    assert pools[0].chain != pools[1].chain;
  }
}
