/**
 * `create_shape_key_action` (lines 48-75): normalise the header, create the
 * shape keys, then for every channel `i` (outer loop) and data row `j`
 * (inner loop) read `row[i]`, parse it, look the key up by its once-normalised
 * name and insert a keyframe at frame `j + 1`. The action's keyframes are a
 * map from (channel, frame) to value: inserting at a (channel, frame) that
 * is already there replaces the value, so the later write wins.
 */
module KeyframeTable {
  import opened Wrappers
  import opened ShapeKeyNames

  /** Where a keyframe sits: the shape key's name and the frame number. */
  datatype Slot = Slot(channel: string, frame: int)

  /** The exceptions the builder lets escape; rows are indices into the whole table. */
  datatype BuildError =
    | NoHeaderRow                          // `frame_data[0]` on an empty table
    | IndexError(row: nat, column: nat)    // `row[i]` on a row that is too short
    | ValueError(row: nat, column: nat)    // `float(row[i])` on a non-numeric field
    | KeyError(name: string)               // `key_blocks[name]` with no such key

  /** What the build leaves on the shape keys: the keys created and the keyframes inserted through them. */
  datatype ShapeKeyAction = ShapeKeyAction(keys: seq<string>, samples: map<Slot, real>)

  /**
   * One iteration of the inner loop (lines 70-75) for channel `i` and data
   * row `j`: the value it keyframes, or the exception it raises.
   */
  function Sample(names: seq<string>, keys: seq<string>, data: seq<seq<string>>,
                  parse: string -> Option<real>, i: nat, j: nat): Result<real, BuildError>
    requires i < |names| && j < |data|
  {
    if i >= |data[j]| then Failure(IndexError(j + 1, i))
    else match parse(data[j][i])
      case None => Failure(ValueError(j + 1, i))
      case Some(v) => if names[i] in keys then Success(v) else Failure(KeyError(names[i]))
  }

  /** Field `i` of data row `j` exists and is numeric. */
  predicate FieldParses(data: seq<seq<string>>, parse: string -> Option<real>, i: nat, j: nat)
    requires j < |data|
  {
    i < |data[j]| && parse(data[j][i]).Some?
  }

  /** The first `n` channels read without an exception on every data row. */
  predicate ColumnsOk(names: seq<string>, keys: seq<string>, data: seq<seq<string>>,
                      parse: string -> Option<real>, n: nat)
    requires n <= |names|
  {
    forall i, j :: 0 <= i < n && 0 <= j < |data| ==> Sample(names, keys, data, parse, i, j).Success?
  }

  /** Every iteration before (i, j) in loop order ran without an exception. */
  predicate BeforeOk(names: seq<string>, keys: seq<string>, data: seq<seq<string>>,
                     parse: string -> Option<real>, i: nat, j: nat)
    requires i < |names| && j <= |data|
  {
    ColumnsOk(names, keys, data, parse, i) &&
    forall j' :: 0 <= j' < j ==> Sample(names, keys, data, parse, i, j').Success?
  }

  /**
   * `e` is the exception of the first iteration, in loop order (channel-major),
   * that raises: that iteration raises `e` and every one before it succeeds.
   */
  predicate FirstFailure(names: seq<string>, keys: seq<string>, data: seq<seq<string>>,
                         parse: string -> Option<real>, e: BuildError)
  {
    exists i, j :: 0 <= i < |names| && 0 <= j < |data|
      && Sample(names, keys, data, parse, i, j) == Failure(e)
      && BeforeOk(names, keys, data, parse, i, j)
  }

  /** The keyframes channel `i` writes on the first `len` data rows. */
  function Column(names: seq<string>, keys: seq<string>, data: seq<seq<string>>,
                  parse: string -> Option<real>, i: nat, len: nat): map<Slot, real>
    requires i < |names| && len <= |data|
    requires forall j :: 0 <= j < len ==> Sample(names, keys, data, parse, i, j).Success?
  {
    if len == 0 then map[]
    else Column(names, keys, data, parse, i, len - 1)
           [Slot(names[i], len) := Sample(names, keys, data, parse, i, len - 1).value]
  }

  /** The keyframes of the first `n` channels, later channels overwriting earlier ones. */
  function Fill(names: seq<string>, keys: seq<string>, data: seq<seq<string>>,
                parse: string -> Option<real>, n: nat): map<Slot, real>
    requires n <= |names| && ColumnsOk(names, keys, data, parse, n)
  {
    if n == 0 then map[]
    else Fill(names, keys, data, parse, n - 1) + Column(names, keys, data, parse, n - 1, |data|)
  }

  /** Column `i` holds exactly frames 1..len of its channel, frame `j + 1` holding row `j`'s value. */
  lemma {:induction false} ColumnContents(names: seq<string>, keys: seq<string>, data: seq<seq<string>>,
                                          parse: string -> Option<real>, i: nat, len: nat)
    requires i < |names| && len <= |data|
    requires forall j :: 0 <= j < len ==> Sample(names, keys, data, parse, i, j).Success?
    ensures forall s :: s in Column(names, keys, data, parse, i, len)
              <==> s.channel == names[i] && 1 <= s.frame <= len
    ensures forall j :: 0 <= j < len ==>
              Column(names, keys, data, parse, i, len)[Slot(names[i], j + 1)]
                == Sample(names, keys, data, parse, i, j).value
  {
    if len > 0 {
      ColumnContents(names, keys, data, parse, i, len - 1);
    }
  }

  /**
   * After the first `n` channels, a keyframe sits at (c, f) exactly when `c`
   * is one of their names and `f` is a data-row frame, 1 to |data|.
   */
  lemma {:induction false} FillSlots(names: seq<string>, keys: seq<string>, data: seq<seq<string>>,
                                     parse: string -> Option<real>, n: nat, s: Slot)
    requires n <= |names| && ColumnsOk(names, keys, data, parse, n)
    ensures s in Fill(names, keys, data, parse, n)
        <==> 1 <= s.frame <= |data| && exists i :: 0 <= i < n && names[i] == s.channel
  {
    if n > 0 {
      FillSlots(names, keys, data, parse, n - 1, s);
      ColumnContents(names, keys, data, parse, n - 1, |data|);
    }
  }

  /**
   * Duplicate names write to the same key and the later channel wins: the
   * value at (names[i], j + 1) is channel `i`'s sample when no later channel
   * among the first `n` has the same name.
   */
  lemma {:induction false} FillLastWins(names: seq<string>, keys: seq<string>, data: seq<seq<string>>,
                                        parse: string -> Option<real>, n: nat, i: nat, j: nat)
    requires n <= |names| && ColumnsOk(names, keys, data, parse, n)
    requires i < n && j < |data|
    requires forall i' :: i < i' < n ==> names[i'] != names[i]
    ensures Slot(names[i], j + 1) in Fill(names, keys, data, parse, n)
    ensures Fill(names, keys, data, parse, n)[Slot(names[i], j + 1)]
              == Sample(names, keys, data, parse, i, j).value
  {
    ColumnContents(names, keys, data, parse, n - 1, |data|);
    if i < n - 1 {
      FillLastWins(names, keys, data, parse, n - 1, i, j);
    }
  }

  /**
   * The nested loops at lines 68-75 over the data rows `data`, given the
   * once-normalised names and the keys that exist. The first iteration that
   * raises decides the error; otherwise every channel's keyframes are written.
   */
  method BuildTable(names: seq<string>, keys: seq<string>, data: seq<seq<string>>,
                    parse: string -> Option<real>) returns (r: Result<map<Slot, real>, BuildError>)
    ensures r.Success? <==> ColumnsOk(names, keys, data, parse, |names|)
    ensures r.Success? ==> r.value == Fill(names, keys, data, parse, |names|)
    ensures r.Failure? ==> FirstFailure(names, keys, data, parse, r.error)
  {
    var table: map<Slot, real> := map[];
    for i := 0 to |names|
      invariant ColumnsOk(names, keys, data, parse, i)
      invariant table == Fill(names, keys, data, parse, i)
    {
      var name := names[i];
      for j := 0 to |data|
        invariant BeforeOk(names, keys, data, parse, i, j)
        invariant table == Fill(names, keys, data, parse, i) + Column(names, keys, data, parse, i, j)
      {
        var row := data[j];
        var frame := j + 1;
        if i >= |row| {
          r := Failure(IndexError(j + 1, i));
          assert Sample(names, keys, data, parse, i, j) == Failure(r.error);
          return;
        }
        var value := parse(row[i]);
        if value.None? {
          r := Failure(ValueError(j + 1, i));
          assert Sample(names, keys, data, parse, i, j) == Failure(r.error);
          return;
        }
        if name !in keys {
          r := Failure(KeyError(name));
          assert Sample(names, keys, data, parse, i, j) == Failure(r.error);
          return;
        }
        table := table[Slot(name, frame) := value.value];
      }
    }
    r := Success(table);
  }

  /**
   * Lines 48-75 on the whole table: the header is row 0 and the data rows
   * follow. The keys are "Basis" and the header normalised twice; lookups use
   * the header normalised once.
   */
  method CreateShapeKeyAction(frameData: seq<seq<string>>, parse: string -> Option<real>)
    returns (r: Result<ShapeKeyAction, BuildError>)
    ensures |frameData| == 0 ==> r == Failure(NoHeaderRow)
    ensures |frameData| > 0 ==>
      var names := NormalizeAll(frameData[0]);
      var keys := ShapeKeysFor(names);
      var data := frameData[1..];
      |names| == |frameData[0]| &&
      (r.Success? <==> ColumnsOk(names, keys, data, parse, |names|)) &&
      (r.Success? ==> r.value == ShapeKeyAction(keys, Fill(names, keys, data, parse, |names|))) &&
      (r.Failure? ==> FirstFailure(names, keys, data, parse, r.error))
  {
    if |frameData| == 0 {
      return Failure(NoHeaderRow);
    }
    var header := frameData[0];
    var names := NormalizeHeader(header);
    NormalizeAllAt(header);
    assert names == NormalizeAll(header);
    var keys := CreateShapeKeys(names);
    NormalizeAllAt(names);
    assert keys == ShapeKeysFor(names);
    var samples := BuildTable(names, keys, frameData[1..], parse);
    match samples
    case Failure(e) => r := Failure(e);
    case Success(m) => r := Success(ShapeKeyAction(keys, m));
  }

  /** When the rule is idempotent on every name, each name is among the keys created for it. */
  lemma IdempotentNamesAreKeys(names: seq<string>)
    requires forall k :: 0 <= k < |names| ==> Normalize(names[k]) == names[k]
    ensures forall i :: 0 <= i < |names| ==> names[i] in ShapeKeysFor(names)
  {
    var keys := ShapeKeysFor(names);
    NormalizeAllAt(names);
    forall i | 0 <= i < |names| ensures names[i] in keys {
      assert keys[i + 1] == names[i];
    }
  }

  /**
   * When the rule is idempotent on every once-normalised name, every lookup
   * at line 73 finds its key, and the build raises only for short rows and
   * non-numeric fields.
   */
  lemma IdempotentNamesAllFound(names: seq<string>, data: seq<seq<string>>, parse: string -> Option<real>)
    requires forall k :: 0 <= k < |names| ==> Normalize(names[k]) == names[k]
    ensures forall i :: 0 <= i < |names| ==> names[i] in ShapeKeysFor(names)
    ensures forall i, j :: 0 <= i < |names| && 0 <= j < |data| ==>
              !Sample(names, ShapeKeysFor(names), data, parse, i, j).Failure?
              || !Sample(names, ShapeKeysFor(names), data, parse, i, j).error.KeyError?
    ensures ColumnsOk(names, ShapeKeysFor(names), data, parse, |names|)
        <==> (forall i, j :: 0 <= i < |names| && 0 <= j < |data| ==> FieldParses(data, parse, i, j))
  {
    var keys := ShapeKeysFor(names);
    IdempotentNamesAreKeys(names);
    forall i, j | 0 <= i < |names| && 0 <= j < |data|
      ensures !Sample(names, keys, data, parse, i, j).Failure?
              || !Sample(names, keys, data, parse, i, j).error.KeyError?
    {
      assert names[i] in keys;
    }
    if ColumnsOk(names, keys, data, parse, |names|) {
      forall i, j | 0 <= i < |names| && 0 <= j < |data|
        ensures FieldParses(data, parse, i, j)
      {
        assert Sample(names, keys, data, parse, i, j).Success?;
      }
    }
    if forall i, j :: 0 <= i < |names| && 0 <= j < |data| ==> FieldParses(data, parse, i, j) {
      forall i, j | 0 <= i < |names| && 0 <= j < |data|
        ensures Sample(names, keys, data, parse, i, j).Success?
      {
        assert names[i] in keys && FieldParses(data, parse, i, j);
      }
    }
  }

  /**
   * The double normalisation can lose a key: a header "LLefteft" is looked
   * up as "L_Left", but the key was created as "L__L", so the first data
   * row raises a KeyError even though its field is numeric.
   */
  lemma DoubleNormalizationLosesKey(parse: string -> Option<real>)
    requires parse("0.5") == Some(0.5)
    ensures var names := NormalizeAll(["LLefteft"]);
      names == ["L_Left"] &&
      Sample(names, ShapeKeysFor(names), [["0.5"]], parse, 0, 0) == Failure(KeyError("L_Left"))
  {
    NormalizeNotIdempotent("LLefteft");
    assert NormalizeAll(["LLefteft"]) == ["L_Left"];
    assert ShapeKeysFor(["L_Left"]) == ["Basis", "L__L"];
  }
}
