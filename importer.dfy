/**
 * The data path of the operator's `execute` (lines 108-119): estimate the
 * rate, cancel when there is none, otherwise build the shape keys and the
 * keyframes from the table. The rows given here are what the file holds,
 * already split into fields; both reads of the file see the same rows.
 */
module Importer {
  import opened Wrappers
  import opened FpsEstimate
  import opened ShapeKeyNames
  import opened KeyframeTable

  /** An exception that escapes `execute`. */
  datatype ImportError = RateFailed(fpsError: FpsError) | BuildFailed(buildError: BuildError)

  /** How `execute` ends. */
  datatype ImportOutcome =
    | Cancelled                                              // {'CANCELLED'}, nothing read or created
    | Raised(error: ImportError)                              // an exception propagated
    | Built(action: ShapeKeyAction, averageFps: real)         // keys and keyframes built; the bake is not modelled here

  method Execute(rows: seq<seq<string>>, parse: string -> Option<real>) returns (o: ImportOutcome)
    ensures o == Cancelled <==> AverageFps(rows, parse) == Success(None)
    ensures AverageFps(rows, parse).Failure? ==> o == Raised(RateFailed(AverageFps(rows, parse).error))
    ensures AverageFps(rows, parse).Success? && AverageFps(rows, parse).value.Some? ==>
      |rows| > 0 &&
      var names := NormalizeAll(rows[0]);
      var keys := ShapeKeysFor(names);
      var data := rows[1..];
      (o.Built? <==> ColumnsOk(names, keys, data, parse, |names|)) &&
      (o.Built? ==>
         o.averageFps == AverageFps(rows, parse).value.value &&
         o.action == ShapeKeyAction(keys, Fill(names, keys, data, parse, |names|))) &&
      (!o.Built? ==> o.Raised? && o.error.BuildFailed? && FirstFailure(names, keys, data, parse, o.error.buildError))
  {
    var averageFps := CalculateAverageFps(rows, parse);
    match averageFps
    case Failure(e) =>
      o := Raised(RateFailed(e));
    case Success(None) =>
      o := Cancelled;
    case Success(Some(rate)) =>
      assert |rows| > 0;
      var action := CreateShapeKeyAction(rows, parse);
      match action
      case Failure(e) => o := Raised(BuildFailed(e));
      case Success(a) => o := Built(a, rate);
  }

  /** A three-column example table: a header and two data rows at 30 frames per second. */
  function EyeBlinkRows(): seq<seq<string>>
  {
    [["eyeBlinkLeft", "eyeBlinkRight", "fps"], ["0.1", "0.2", "30"], ["0.5", "0.6", "30"]]
  }

  /** The parser facts the three-column example table relies on. */
  predicate EyeBlinkParse(parse: string -> Option<real>)
  {
    parse("fps") == None && parse("30") == Some(30.0) &&
    parse("0.1") == Some(0.1) && parse("0.2") == Some(0.2) &&
    parse("0.5") == Some(0.5) && parse("0.6") == Some(0.6)
  }

  /** The header's "fps" does not parse; both data rows say 30, so the rate is 30. */
  lemma EyeBlinkRate(parse: string -> Option<real>)
    requires EyeBlinkParse(parse)
    ensures AverageFps(EyeBlinkRows(), parse) == Success(Some(30.0))
  {
    var rows := EyeBlinkRows();
    assert NoEmptyRow(rows);
    assert rows[..2] == rows[..|rows| - 1] && rows[..2][..1] == rows[..1] && rows[..1][..0] == [];
    assert LastField(rows[0]) == "fps" && LastField(rows[1]) == "30" && LastField(rows[2]) == "30";
    assert ParsedRates(rows[..1], parse) == [];
    assert ParsedRates(rows[..2], parse) == [30.0];
    assert ParsedRates(rows, parse) == [30.0, 30.0];
    assert Sum([30.0, 30.0]) == 60.0 by {
      assert [30.0, 30.0][1..] == [30.0] && [30.0][1..] == [];
    }
  }

  /**
   * The three-column example table's channels: three (the rate column is one of them),
   * with keys "Basis" then the same three names.
   */
  lemma EyeBlinkKeys()
    ensures NormalizeAll(EyeBlinkRows()[0]) == ["eyeBlink_L", "eyeBlink_R", "fps"]
    ensures ShapeKeysFor(NormalizeAll(EyeBlinkRows()[0])) == ["Basis", "eyeBlink_L", "eyeBlink_R", "fps"]
  {
    NormalizeEyeBlinkHeader();
  }

  /** The three-column example table's keyframes: each value at frame 1 or 2 according to its row. */
  lemma EyeBlinkTable(parse: string -> Option<real>)
    requires EyeBlinkParse(parse)
    ensures var names := ["eyeBlink_L", "eyeBlink_R", "fps"];
      var keys := ["Basis", "eyeBlink_L", "eyeBlink_R", "fps"];
      var data := EyeBlinkRows()[1..];
      ColumnsOk(names, keys, data, parse, 3) &&
      var samples := Fill(names, keys, data, parse, 3);
      samples[Slot("eyeBlink_L", 1)] == 0.1 && samples[Slot("eyeBlink_L", 2)] == 0.5 &&
      samples[Slot("eyeBlink_R", 1)] == 0.2 && samples[Slot("eyeBlink_R", 2)] == 0.6 &&
      samples[Slot("fps", 1)] == 30.0 && samples[Slot("fps", 2)] == 30.0
  {
    var names := ["eyeBlink_L", "eyeBlink_R", "fps"];
    var keys := ["Basis", "eyeBlink_L", "eyeBlink_R", "fps"];
    var data := EyeBlinkRows()[1..];
    assert data == [["0.1", "0.2", "30"], ["0.5", "0.6", "30"]];
    forall i, j | 0 <= i < 3 && 0 <= j < 2 ensures Sample(names, keys, data, parse, i, j).Success? {
      assert names[i] == keys[i + 1];
    }
    FillLastWins(names, keys, data, parse, 3, 0, 0);
    FillLastWins(names, keys, data, parse, 3, 0, 1);
    FillLastWins(names, keys, data, parse, 3, 1, 0);
    FillLastWins(names, keys, data, parse, 3, 1, 1);
    FillLastWins(names, keys, data, parse, 3, 2, 0);
    FillLastWins(names, keys, data, parse, 3, 2, 1);
  }
}
