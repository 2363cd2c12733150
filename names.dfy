/**
 * Channel names: the per-name rule of `__init__.py` (four names kept
 * verbatim, every other name with "Left" and then "Right" replaced), the loop
 * of `create_shape_key_action` that normalises the header row, and the loop
 * of `create_shape_keys` that creates "Basis" followed by one key per name,
 * normalising each name a second time.
 */
module ShapeKeyNames {
  import opened Strings

  /** The names the rule keeps verbatim. */
  const Exceptions: seq<string> := ["jawLeft", "jawRight", "mouthLeft", "mouthRight"]

  /** The name of the reference key created before all others. */
  const BasisName: string := "Basis"

  /** The per-name rule, applied at lines 42-46 and again at lines 53-57. */
  function Normalize(name: string): string
  {
    if name in Exceptions then name
    else Replace(Replace(name, "Left", "_L"), "Right", "_R")
  }

  /** The header normalised entry by entry, as a value. */
  function NormalizeAll(names: seq<string>): seq<string>
  {
    if |names| == 0 then [] else [Normalize(names[0])] + NormalizeAll(names[1..])
  }

  /** The keys `create_shape_keys` adds, in order. */
  function ShapeKeysFor(names: seq<string>): seq<string>
  {
    [BasisName] + NormalizeAll(names)
  }

  /** `NormalizeAll` keeps the length and normalises entry `k` into entry `k`. */
  lemma {:induction false} NormalizeAllAt(names: seq<string>)
    ensures |NormalizeAll(names)| == |names|
    ensures forall k :: 0 <= k < |names| ==> NormalizeAll(names)[k] == Normalize(names[k])
  {
    if |names| > 0 {
      NormalizeAllAt(names[1..]);
    }
  }

  /** The loop at lines 50-57: one normalised name appended per header field. */
  method NormalizeHeader(header: seq<string>) returns (modified: seq<string>)
    ensures |modified| == |header|
    ensures forall k :: 0 <= k < |header| ==> modified[k] == Normalize(header[k])
  {
    modified := [];
    for k := 0 to |header|
      invariant |modified| == k
      invariant forall m :: 0 <= m < k ==> modified[m] == Normalize(header[m])
    {
      var name := header[k];
      if name in Exceptions {
        modified := modified + [name];
      } else {
        var renamed := Replace(Replace(name, "Left", "_L"), "Right", "_R");
        modified := modified + [renamed];
      }
    }
  }

  /** The loop at lines 39-46: "Basis" first, then each given name normalised again. */
  method CreateShapeKeys(names: seq<string>) returns (keys: seq<string>)
    ensures |keys| == |names| + 1 && keys[0] == BasisName
    ensures forall k :: 0 <= k < |names| ==> keys[k + 1] == Normalize(names[k])
  {
    keys := [BasisName];
    for k := 0 to |names|
      invariant |keys| == k + 1 && keys[0] == BasisName
      invariant forall m :: 0 <= m < k ==> keys[m + 1] == Normalize(names[m])
    {
      var name := names[k];
      if name in Exceptions {
        keys := keys + [name];
      } else {
        var renamed := Replace(Replace(name, "Left", "_L"), "Right", "_R");
        keys := keys + [renamed];
      }
    }
  }

  /** The four exception names survive one and two rounds of normalisation. */
  lemma ExceptionsAreFixed(name: string)
    requires name in Exceptions
    ensures Normalize(name) == name && Normalize(Normalize(name)) == name
  {
  }

  /** A name with neither "Left" nor "Right" in it is left as it is. */
  lemma NormalizeUnmarked(name: string)
    requires !Occurs(name, "Left") && !Occurs(name, "Right")
    ensures Normalize(name) == name
  {
    ReplaceAbsent(name, "Left", "_L");
    ReplaceAbsent(name, "Right", "_R");
  }

  /** Outside the exceptions, the rule is the "Left" pass followed by the "Right" pass. */
  lemma NormalizeVia(name: string, afterLeft: string, afterRight: string)
    requires name !in Exceptions
    requires Replace(name, "Left", "_L") == afterLeft && Replace(afterLeft, "Right", "_R") == afterRight
    ensures Normalize(name) == afterRight
  {
  }

  /** The first round on "LLefteft": the leading 'L' starts no match, the next four characters do. */
  lemma LeftPassOnce()
    ensures Replace("LLefteft", "Left", "_L") == "L_Left"
  {
    assert "LLefteft"[1] != "Left"[1];
    assert "LLefteft"[1..] == "" + "Left" + "eft";
    ReplaceFirst("", "Left", "eft", "_L");
    ReplaceWithoutFirstChar("eft", "Left", "_L");
  }

  /** The second round on "L_Left": "L_" starts no match, the "Left" after it does. */
  lemma LeftPassTwice()
    ensures Replace("L_Left", "Left", "_L") == "L__L"
  {
    assert "L_Left"[1] != "Left"[1];
    assert "L_Left"[1..] == "_" + "Left" + "";
    ReplaceFirst("_", "Left", "", "_L");
    ReplaceWithoutFirstChar("", "Left", "_L");
  }

  /** The rule is not idempotent: "LLefteft" becomes "L_Left", which becomes "L__L". */
  lemma NormalizeNotIdempotent(name: string)
    requires name == "LLefteft"
    ensures Normalize(name) == "L_Left"
    ensures Normalize(Normalize(name)) == "L__L"
  {
    var once, twice := "L_Left", "L__L";
    assert name !in Exceptions && once !in Exceptions;
    LeftPassOnce();
    ReplaceWithoutFirstChar(once, "Right", "_R");
    NormalizeVia(name, once, once);
    LeftPassTwice();
    ReplaceWithoutFirstChar(twice, "Right", "_R");
    NormalizeVia(once, twice, twice);
  }

  /**
   * The keys created from the once-normalised header (after "Basis") are the
   * very names later used for lookup exactly when the rule is idempotent on
   * every normalised header name.
   */
  lemma {:induction false} KeysMatchLookupIff(header: seq<string>)
    ensures ShapeKeysFor(NormalizeAll(header))[1..] == NormalizeAll(header)
        <==> forall k :: 0 <= k < |header| ==> Normalize(Normalize(header[k])) == Normalize(header[k])
  {
    var once := NormalizeAll(header);
    NormalizeAllAt(header);
    NormalizeAllAt(once);
    assert ShapeKeysFor(once)[1..] == NormalizeAll(once);
    if NormalizeAll(once) == once {
      forall k | 0 <= k < |header|
        ensures Normalize(Normalize(header[k])) == Normalize(header[k])
      {
        assert NormalizeAll(once)[k] == once[k];
      }
    }
  }

  /** A name with neither an 'L' nor an 'R' in it cannot hold a marker and is kept. */
  lemma NormalizeWithoutCapitals(name: string)
    requires 'L' !in name && 'R' !in name
    ensures Normalize(name) == name
  {
    ReplaceWithoutFirstChar(name, "Left", "_L");
    ReplaceWithoutFirstChar(name, "Right", "_R");
  }

  /** A name with one "Left" and no other 'L' or 'R' gets exactly that "Left" replaced by "_L". */
  lemma NormalizeOneLeft(u: string, w: string)
    requires 'L' !in u && 'L' !in w && 'R' !in u && 'R' !in w
    requires u + "Left" + w !in Exceptions
    ensures Normalize(u + "Left" + w) == u + "_L" + w
  {
    var pass := u + "_L" + w;
    ReplaceFirst(u, "Left", w, "_L");
    ReplaceWithoutFirstChar(w, "Left", "_L");
    assert Replace(u + "Left" + w, "Left", "_L") == pass;
    assert 'R' !in pass;
    ReplaceWithoutFirstChar(pass, "Right", "_R");
  }

  /** A name with one "Right" and no other 'L' or 'R' gets exactly that "Right" replaced by "_R". */
  lemma NormalizeOneRight(u: string, w: string)
    requires 'L' !in u && 'L' !in w && 'R' !in u && 'R' !in w
    requires u + "Right" + w !in Exceptions
    ensures Normalize(u + "Right" + w) == u + "_R" + w
  {
    var name := u + "Right" + w;
    assert 'L' !in name;
    ReplaceWithoutFirstChar(name, "Left", "_L");
    ReplaceFirst(u, "Right", w, "_R");
    ReplaceWithoutFirstChar(w, "Right", "_R");
  }

  /** The renaming the rule is written for: a side marker inside a name. */
  lemma NormalizeBrowLeftDown()
    ensures Normalize("browLeftDown") == "brow_LDown"
  {
    assert "brow" + "Left" + "Down" == "browLeftDown";
    assert "brow" + "_L" + "Down" == "brow_LDown";
    NormalizeOneLeft("brow", "Down");
  }

  /**
   * A non-exception name ending in "_L" or "_R" after a part with no 'L' and
   * no 'R' is already normal: the markers the rule writes are not read again
   * as markers. Other names ending in "_L" need not be ("aLeft_L").
   */
  lemma NormalizeMarkedTail(u: string, side: char)
    requires 'L' !in u && 'R' !in u && (side == 'L' || side == 'R')
    requires u + ['_', side] !in Exceptions
    ensures Normalize(u + ['_', side]) == u + ['_', side]
  {
    var tail := ['_', side];
    ReplaceSkip(u, tail, "Left", "_L");
    ReplaceShort(tail, "Left", "_L");
    ReplaceSkip(u, tail, "Right", "_R");
    ReplaceShort(tail, "Right", "_R");
  }

  /** "eyeBlinkLeft" becomes "eyeBlink_L", which stays as it is. */
  lemma NormalizeEyeBlinkLeft()
    ensures Normalize("eyeBlinkLeft") == "eyeBlink_L" && Normalize("eyeBlink_L") == "eyeBlink_L"
  {
    assert "eyeBlink" + "Left" + "" == "eyeBlinkLeft" && "eyeBlink" + "_L" + "" == "eyeBlink_L";
    NormalizeOneLeft("eyeBlink", "");
    assert "eyeBlink" + ['_', 'L'] == "eyeBlink_L";
    NormalizeMarkedTail("eyeBlink", 'L');
  }

  /** "eyeBlinkRight" becomes "eyeBlink_R", which stays as it is. */
  lemma NormalizeEyeBlinkRight()
    ensures Normalize("eyeBlinkRight") == "eyeBlink_R" && Normalize("eyeBlink_R") == "eyeBlink_R"
  {
    assert "eyeBlink" + "Right" + "" == "eyeBlinkRight" && "eyeBlink" + "_R" + "" == "eyeBlink_R";
    NormalizeOneRight("eyeBlink", "");
    assert "eyeBlink" + ['_', 'R'] == "eyeBlink_R";
    NormalizeMarkedTail("eyeBlink", 'R');
  }

  /**
   * A tracker header with one channel per side and a trailing rate column:
   * all three fields become channels, and the result is normal already, so
   * the second normalisation in `create_shape_keys` changes nothing.
   */
  lemma NormalizeEyeBlinkHeader()
    ensures NormalizeAll(["eyeBlinkLeft", "eyeBlinkRight", "fps"]) == ["eyeBlink_L", "eyeBlink_R", "fps"]
    ensures NormalizeAll(["eyeBlink_L", "eyeBlink_R", "fps"]) == ["eyeBlink_L", "eyeBlink_R", "fps"]
  {
    NormalizeEyeBlinkLeft();
    NormalizeEyeBlinkRight();
    NormalizeWithoutCapitals("fps");
    NormalizeAllAt(["eyeBlinkLeft", "eyeBlinkRight", "fps"]);
    NormalizeAllAt(["eyeBlink_L", "eyeBlink_R", "fps"]);
  }
}
