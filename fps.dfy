/**
 * `calculate_average_fps`: the last field of every row, header included, is
 * read as a float; fields that do not parse are skipped; the result is the
 * mean of the values that did parse, or `None` when none did. Only the
 * parse failure is caught: an empty row makes `row[-1]` raise, and that
 * propagates. `float(...)` is the parameter `parse`.
 */
module FpsEstimate {
  import opened Wrappers

  /** `row[-1]` raised on an empty row; `row` is its index. */
  datatype FpsError = EmptyRow(row: nat)

  /** The sum of the collected values (`sum(fps_values)`). */
  function Sum(vs: seq<real>): real
  {
    if |vs| == 0 then 0.0 else vs[0] + Sum(vs[1..])
  }

  /** The mean taken at lines 33-37: `None` for no values. */
  function Mean(vs: seq<real>): Option<real>
  {
    if |vs| == 0 then None else Some(Sum(vs) / (|vs| as real))
  }

  /** Every row has a last field. */
  predicate NoEmptyRow(rows: seq<seq<string>>)
  {
    forall k :: 0 <= k < |rows| ==> |rows[k]| > 0
  }

  /** `row[-1]`. */
  function LastField(row: seq<string>): string
    requires |row| > 0
  {
    row[|row| - 1]
  }

  /** The values the loop collects: the parsed last fields, in row order. */
  function ParsedRates(rows: seq<seq<string>>, parse: string -> Option<real>): seq<real>
    requires NoEmptyRow(rows)
  {
    if |rows| == 0 then []
    else
      var init := rows[..|rows| - 1];
      var last := rows[|rows| - 1];
      assert NoEmptyRow(init) by {
        forall k | 0 <= k < |init| ensures |init[k]| > 0 { assert init[k] == rows[k]; }
      }
      match parse(LastField(last))
      case Some(v) => ParsedRates(init, parse) + [v]
      case None => ParsedRates(init, parse)
  }

  /** The whole estimate, as a value: the first empty row, or the mean. */
  function AverageFps(rows: seq<seq<string>>, parse: string -> Option<real>): Result<Option<real>, FpsError>
  {
    if NoEmptyRow(rows) then Success(Mean(ParsedRates(rows, parse)))
    else Failure(EmptyRow(FirstEmptyRow(rows)))
  }

  /** The index of the first empty row. */
  function FirstEmptyRow(rows: seq<seq<string>>): (k: nat)
    requires !NoEmptyRow(rows)
    ensures k < |rows| && |rows[k]| == 0
    ensures forall m :: 0 <= m < k ==> |rows[m]| > 0
  {
    if |rows[0]| == 0 then 0
    else
      assert !NoEmptyRow(rows[1..]) by {
        var k :| 0 <= k < |rows| && |rows[k]| == 0;
        assert rows[1..][k - 1] == rows[k];
      }
      1 + FirstEmptyRow(rows[1..])
  }

  /** The loop at lines 26-31 followed by the mean at lines 33-37. */
  method CalculateAverageFps(rows: seq<seq<string>>, parse: string -> Option<real>)
    returns (r: Result<Option<real>, FpsError>)
    ensures r == AverageFps(rows, parse)
  {
    var fpsValues: seq<real> := [];
    for k := 0 to |rows|
      invariant NoEmptyRow(rows[..k])
      invariant fpsValues == ParsedRates(rows[..k], parse)
    {
      var row := rows[k];
      if |row| == 0 {
        return Failure(EmptyRow(k));
      }
      assert rows[..k + 1][..k] == rows[..k];
      var fps := parse(row[|row| - 1]);
      if fps.Some? {
        fpsValues := fpsValues + [fps.value];
      }
    }
    assert rows[..|rows|] == rows;
    if |fpsValues| > 0 {
      r := Success(Some(Sum(fpsValues) / (|fpsValues| as real)));
    } else {
      r := Success(None);
    }
  }

  /** A value is collected exactly when some row's last field parses to it. */
  lemma {:induction false} ParsedRatesMembers(rows: seq<seq<string>>, parse: string -> Option<real>, v: real)
    requires NoEmptyRow(rows)
    ensures v in ParsedRates(rows, parse) <==> exists k :: 0 <= k < |rows| && parse(LastField(rows[k])) == Some(v)
  {
    if |rows| > 0 {
      var init := rows[..|rows| - 1];
      assert NoEmptyRow(init) by {
        forall k | 0 <= k < |init| ensures |init[k]| > 0 { assert init[k] == rows[k]; }
      }
      ParsedRatesMembers(init, parse, v);
      if exists k :: 0 <= k < |rows| && parse(LastField(rows[k])) == Some(v) {
        var k :| 0 <= k < |rows| && parse(LastField(rows[k])) == Some(v);
        if k < |rows| - 1 {
          assert init[k] == rows[k];
        }
      }
    }
  }

  /**
   * The estimate is `None` exactly when no row is empty and no row's last
   * field parses; it is then that `execute` cancels the import.
   */
  lemma NoRateIff(rows: seq<seq<string>>, parse: string -> Option<real>)
    ensures AverageFps(rows, parse) == Success(None)
        <==> NoEmptyRow(rows) && forall k :: 0 <= k < |rows| ==> parse(LastField(rows[k])).None?
  {
    if NoEmptyRow(rows) {
      var vs := ParsedRates(rows, parse);
      if |vs| > 0 {
        ParsedRatesMembers(rows, parse, vs[0]);
      } else {
        forall k | 0 <= k < |rows| ensures parse(LastField(rows[k])).None? {
          if parse(LastField(rows[k])).Some? {
            ParsedRatesMembers(rows, parse, parse(LastField(rows[k])).value);
          }
        }
      }
    }
  }

  /** A sum of values within [lo, hi] lies within [n * lo, n * hi]. */
  lemma {:induction false} SumBounds(vs: seq<real>, lo: real, hi: real)
    requires forall k :: 0 <= k < |vs| ==> lo <= vs[k] <= hi
    ensures (|vs| as real) * lo <= Sum(vs) <= (|vs| as real) * hi
  {
    if |vs| > 0 {
      SumBounds(vs[1..], lo, hi);
    }
  }

  /** The mean of values within [lo, hi] lies within [lo, hi]. */
  lemma MeanBounds(vs: seq<real>, lo: real, hi: real)
    requires |vs| > 0
    requires forall k :: 0 <= k < |vs| ==> lo <= vs[k] <= hi
    ensures Mean(vs).Some? && lo <= Mean(vs).value <= hi
  {
    SumBounds(vs, lo, hi);
    var n := |vs| as real;
    assert Sum(vs) / n >= lo by {
      assert Sum(vs) >= n * lo;
    }
    assert Sum(vs) / n <= hi by {
      assert Sum(vs) <= n * hi;
    }
  }

  /** A sum of positive values over a non-empty sequence is positive. */
  lemma {:induction false} SumPositive(vs: seq<real>)
    requires |vs| > 0
    requires forall k :: 0 <= k < |vs| ==> vs[k] > 0.0
    ensures Sum(vs) > 0.0
  {
    if |vs| > 1 {
      SumPositive(vs[1..]);
    }
  }

  /**
   * When every last field that parses is a positive rate, an estimate that is
   * not `None` is positive, so the rescaling at line 84 does not divide by zero.
   */
  lemma PositiveRatesGivePositiveMean(rows: seq<seq<string>>, parse: string -> Option<real>)
    requires forall k :: 0 <= k < |rows| && |rows[k]| > 0 && parse(LastField(rows[k])).Some?
               ==> parse(LastField(rows[k])).value > 0.0
    ensures AverageFps(rows, parse).Success? && AverageFps(rows, parse).value.Some?
        ==> AverageFps(rows, parse).value.value > 0.0
  {
    if NoEmptyRow(rows) {
      var vs := ParsedRates(rows, parse);
      if |vs| > 0 {
        forall k | 0 <= k < |vs| ensures vs[k] > 0.0 {
          ParsedRatesMembers(rows, parse, vs[k]);
        }
        SumPositive(vs);
      }
    }
  }

  /**
   * Mixed last fields "x", "30", "x", "30.5", "abc": the two that parse are
   * averaged to 30.25, the header's field being one of those that do not.
   */
  lemma MixedTrailingColumn(parse: string -> Option<real>)
    requires parse("x") == None && parse("abc") == None
    requires parse("30") == Some(30.0) && parse("30.5") == Some(30.5)
    ensures AverageFps([["x"], ["30"], ["x"], ["30.5"], ["abc"]], parse) == Success(Some(30.25))
  {
    var r1, r2, r3, r4 := [["x"]], [["x"], ["30"]], [["x"], ["30"], ["x"]], [["x"], ["30"], ["x"], ["30.5"]];
    var rows := r4 + [["abc"]];
    assert r2[..1] == r1;
    assert r3[..2] == r2;
    assert r4[..3] == r3;
    assert rows[..4] == r4;
    assert r1[..0] == [];
    assert ParsedRates(r1, parse) == [];
    assert ParsedRates(r2, parse) == [30.0];
    assert ParsedRates(r3, parse) == [30.0];
    assert ParsedRates(r4, parse) == [30.0, 30.5];
    assert ParsedRates(rows, parse) == [30.0, 30.5];
    assert [30.0, 30.5][1..] == [30.5] && [30.5][1..] == [];
    assert Sum([30.0, 30.5]) == 60.5;
    assert rows == [["x"], ["30"], ["x"], ["30.5"], ["abc"]];
    assert NoEmptyRow(rows);
  }

  /** An empty row raises, even after rows that parsed and with rows left. */
  lemma EmptyRowRaises(parse: string -> Option<real>)
    ensures AverageFps([["30"], [], ["x"]], parse) == Failure(EmptyRow(1))
  {
  }

  /** The rate row `row` contributes: its last field parsed, or nothing for an empty row. */
  function RowRate(row: seq<string>, parse: string -> Option<real>): Option<real>
  {
    if |row| == 0 then None else parse(LastField(row))
  }

  /** How many rows, counted one at a time from the first, have a last field that parses. */
  function CountParsing(rows: seq<seq<string>>, parse: string -> Option<real>): nat
  {
    if |rows| == 0 then 0
    else (if RowRate(rows[0], parse).Some? then 1 else 0) + CountParsing(rows[1..], parse)
  }

  /** The total of those parsed last fields, added one row at a time from the first. */
  function SumParsing(rows: seq<seq<string>>, parse: string -> Option<real>): real
  {
    if |rows| == 0 then 0.0
    else (if RowRate(rows[0], parse).Some? then RowRate(rows[0], parse).value else 0.0)
         + SumParsing(rows[1..], parse)
  }

  /** Appending a value adds it to the sum. */
  lemma {:induction false} SumAppend(vs: seq<real>, v: real)
    ensures Sum(vs + [v]) == Sum(vs) + v
  {
    if |vs| > 0 {
      assert (vs + [v])[1..] == vs[1..] + [v];
      SumAppend(vs[1..], v);
    }
  }

  /** Counting and summing from the front agree with taking the last row off the back. */
  lemma {:induction false} ParsingSnoc(rows: seq<seq<string>>, parse: string -> Option<real>)
    requires |rows| > 0
    ensures var init, last := rows[..|rows| - 1], rows[|rows| - 1];
      CountParsing(rows, parse) == CountParsing(init, parse) + (if RowRate(last, parse).Some? then 1 else 0) &&
      SumParsing(rows, parse)
        == SumParsing(init, parse) + (if RowRate(last, parse).Some? then RowRate(last, parse).value else 0.0)
  {
    if |rows| > 1 {
      ParsingSnoc(rows[1..], parse);
      assert rows[1..][..|rows| - 2] == rows[..|rows| - 1][1..];
    }
  }

  /**
   * Each row whose last field parses, the header included, contributes its
   * value exactly once: the collected values are as many as such rows and
   * add up to their total.
   */
  lemma {:induction false} ParsedRatesCountAndSum(rows: seq<seq<string>>, parse: string -> Option<real>)
    requires NoEmptyRow(rows)
    ensures |ParsedRates(rows, parse)| == CountParsing(rows, parse)
    ensures Sum(ParsedRates(rows, parse)) == SumParsing(rows, parse)
  {
    if |rows| > 0 {
      var init := rows[..|rows| - 1];
      assert NoEmptyRow(init) by {
        forall k | 0 <= k < |init| ensures |init[k]| > 0 { assert init[k] == rows[k]; }
      }
      ParsedRatesCountAndSum(init, parse);
      ParsingSnoc(rows, parse);
      var last := rows[|rows| - 1];
      if parse(LastField(last)).Some? {
        SumAppend(ParsedRates(init, parse), parse(LastField(last)).value);
      }
    }
  }

  /**
   * The estimate is the total of the parsing last fields divided by their
   * number, or `None` when there are none.
   */
  lemma AverageFpsIsRatio(rows: seq<seq<string>>, parse: string -> Option<real>)
    requires NoEmptyRow(rows)
    ensures CountParsing(rows, parse) == 0 ==> AverageFps(rows, parse) == Success(None)
    ensures CountParsing(rows, parse) > 0 ==>
      AverageFps(rows, parse) == Success(Some(SumParsing(rows, parse) / (CountParsing(rows, parse) as real)))
  {
    ParsedRatesCountAndSum(rows, parse);
  }
}
