/**
 * Copying the selected container's address: the selection checks, and
 * the extraction of the first address from docker's address field, which
 * may list several addresses separated by commas or spaces.
 *
 * The extraction's fallback scanner, reached only for input starting
 * with a comma, resumes its digit scan at the wrong position in the code
 * as written (`Resume.AtResultLength`); the rest of the model uses the
 * corrected scanner (`Resume.AfterThirdDot`).
 */
module CopyIp {

  import opened Wrappers
  import opened Text
  import opened Containers
  import State = AppState

  const IpSeparators: set<char> := {',', ' '}

  predicate IsIpChar(c: char) {
    IsDigit(c) || c == '.' || c == ':'
  }

  /** Where the scan for the last octet's digits starts once a third dot
      is read: at the index equal to the number of characters collected so
      far, as written, or right after the third dot, as intended. */
  datatype Resume = AtResultLength | AfterThirdDot

  /** The digits of `t` from index `k` on, up to the first non-digit. */
  function DigitRun(t: String, k: nat): (r: String)
    ensures forall m :: 0 <= m < |r| ==> IsDigit(r[m])
    decreases |t| - k
  {
    if k < |t| && IsDigit(t[k]) then [t[k]] + DigitRun(t, k + 1) else []
  }

  /** The digit run from `k` is the slice up to the first non-digit. */
  lemma {:induction false} DigitRunSlice(t: String, k: nat) returns (e: nat)
    requires k <= |t|
    ensures k <= e <= |t| && DigitRun(t, k) == t[k..e]
    ensures e == |t| || !IsDigit(t[e])
    decreases |t| - k
  {
    if k < |t| && IsDigit(t[k]) {
      e := DigitRunSlice(t, k + 1);
      assert t[k..e] == [t[k]] + t[k + 1..e];
    } else {
      e := k;
    }
  }

  /**
   * The character scan from index `i`, having collected `result` and read
   * `dots` dots: collect address characters, stop at the first other
   * character once collecting has begun, and after the third dot add the
   * digit run found at the resume position and stop.
   */
  function Scan(t: String, i: nat, result: String, dots: nat, resume: Resume): (r: String)
    requires i <= |t| && dots < 3
    decreases |t| - i
  {
    if i == |t| then result
    else if IsIpChar(t[i]) then
      var collected := result + [t[i]];
      var dots' := if t[i] == '.' then dots + 1 else dots;
      if dots' == 3 then
        collected + DigitRun(t, if resume == AfterThirdDot then i + 1 else |collected|)
      else Scan(t, i + 1, collected, dots', resume)
    else if result != [] then result
    else Scan(t, i + 1, result, dots, resume)
  }

  /** The scan only extends what it has collected. */
  lemma {:induction false} ScanExtendsResult(t: String, i: nat, result: String, dots: nat, resume: Resume)
    requires i <= |t| && dots < 3
    ensures |result| <= |Scan(t, i, result, dots, resume)|
    ensures Scan(t, i, result, dots, resume)[..|result|] == result
    decreases |t| - i
  {
    if i < |t| {
      if IsIpChar(t[i]) {
        var collected := result + [t[i]];
        var dots' := if t[i] == '.' then dots + 1 else dots;
        if dots' < 3 {
          ScanExtendsResult(t, i + 1, collected, dots', resume);
          assert collected[..|result|] == result;
        }
      } else if result == [] {
        ScanExtendsResult(t, i + 1, result, dots, resume);
      }
    }
  }

  /** The first address in an address field: the first comma- or
      space-separated piece, trimmed, when that is not empty; otherwise the
      character scan, or the trimmed input when the scan finds nothing. */
  function Extract(ipString: String, resume: Resume): (r: String)
    ensures r == [] <==> Trim(ipString) == []
  {
    var trimmed := Trim(ipString);
    assert trimmed == [] ==> Split(trimmed, IpSeparators) == [[]];
    var first := Trim(Split(trimmed, IpSeparators)[0]);
    if first != [] then first
    else
      var scanned := Scan(trimmed, 0, [], 0, resume);
      if scanned == [] then trimmed else scanned
  }

  /** The extraction with the resume point corrected. */
  function FirstIp(ipString: String): (r: String)
    ensures r == [] <==> Trim(ipString) == []
    ensures NoOuterWhitespace(r)
  {
    ExtractHasNoOuterWhitespace(ipString, AfterThirdDot);
    Extract(ipString, AfterThirdDot)
  }

  /** `extract_first_ip` as written. */
  function FirstIpAsWritten(ipString: String): (r: String)
    ensures r == [] <==> Trim(ipString) == []
    ensures NoOuterWhitespace(r)
  {
    ExtractHasNoOuterWhitespace(ipString, AtResultLength);
    Extract(ipString, AtResultLength)
  }

  // ------------------------------------------------------------- properties

  /** A non-empty first piece is the answer, whichever scanner is used. */
  lemma FirstPieceWins(ipString: String, resume: Resume)
    requires Trim(Split(Trim(ipString), IpSeparators)[0]) != []
    ensures Extract(ipString, resume) == Trim(Split(Trim(ipString), IpSeparators)[0])
  {
  }

  /** Blank input gives the empty string. */
  lemma BlankGivesEmpty(ipString: String, resume: Resume)
    requires Trim(ipString) == []
    ensures Extract(ipString, resume) == []
  {
    assert Split([], IpSeparators) == [[]];
  }

  /** A trimmed string that starts with a non-whitespace character trims to
      something non-empty. */
  lemma TrimKeepsNonBlankStart(s: String)
    requires s != [] && !IsWhitespace(s[0])
    ensures Trim(s) != []
  {
    TrimIsSlice(s);
    assert SkipWhitespace(s, 0) == 0;
  }

  /** The character scan only runs when the trimmed input is empty or
      begins with a comma. */
  lemma ScanOnlyAfterLeadingComma(ipString: String)
    requires Trim(Split(Trim(ipString), IpSeparators)[0]) == []
    ensures Trim(ipString) == [] || Trim(ipString)[0] == ','
  {
    var t := Trim(ipString);
    if t != [] && t[0] != ',' {
      assert !IsWhitespace(t[0]);
      assert t[0] != ' ';
      var piece := Split(t, IpSeparators)[0];
      assert piece != [] && piece[0] == t[0];
      TrimKeepsNonBlankStart(piece);
    }
  }

  /** Input without commas or spaces comes back whole, trimmed: addresses
      written together with no separator are not told apart. */
  lemma UnseparatedInputWhole(ipString: String, resume: Resume)
    requires Trim(ipString) != []
    requires forall k :: 0 <= k < |Trim(ipString)| ==> Trim(ipString)[k] !in IpSeparators
    ensures Extract(ipString, resume) == Trim(ipString)
  {
    var t := Trim(ipString);
    SplitNoSeparator(t, IpSeparators);
    TrimIdempotent(ipString);
  }

  /** Two addresses printed together, as docker does for a container on
      two networks, come back whole from either extraction. */
  lemma ConcatenatedAddressesWhole()
    ensures FirstIpAsWritten("192.168.1.100172.17.0.2") == "192.168.1.100172.17.0.2"
    ensures FirstIp("192.168.1.100172.17.0.2") == "192.168.1.100172.17.0.2"
  {
    var s: String := "192.168.1.100172.17.0.2";
    TrimIdentity(s);
    UnseparatedInputWhole(s, AtResultLength);
    UnseparatedInputWhole(s, AfterThirdDot);
  }

  /** The address cut after at most three digits following its third dot,
      `dots` dots and `digits` digits of the last octet having been read:
      an octet has no more than three digits, so what follows them belongs
      to the next address. */
  function OctetCapped(e: String, dots: nat, digits: nat): (r: String)
    requires dots <= 3 && digits <= 3
    ensures |r| <= |e| && r == e[..|r|]
    decreases |e|
  {
    if e == [] then []
    else if dots < 3 then [e[0]] + OctetCapped(e[1..], if e[0] == '.' then dots + 1 else dots, 0)
    else if digits < 3 && IsDigit(e[0]) then [e[0]] + OctetCapped(e[1..], 3, digits + 1)
    else []
  }

  /** The extraction with concatenated addresses told apart: the first
      address, ending at most three digits after its third dot. */
  function FirstIpSplitConcatenated(ipString: String): (r: String)
    ensures |r| <= |FirstIp(ipString)| && r == FirstIp(ipString)[..|r|]
  {
    OctetCapped(FirstIp(ipString), 0, 0)
  }

  /** Before the third dot, a run of digits is kept. */
  lemma {:induction false} CappedCopiesDigits(x: String, rest: String, dots: nat, digits: nat)
    requires dots < 3 && digits <= 3
    requires forall k :: 0 <= k < |x| ==> IsDigit(x[k])
    ensures OctetCapped(x + rest, dots, digits) == x + OctetCapped(rest, dots, 0)
    decreases |x|
  {
    if x != [] {
      assert (x + rest)[1..] == x[1..] + rest;
      CappedCopiesDigits(x[1..], rest, dots, 0);
      assert x == [x[0]] + x[1..];
    } else {
      assert x + rest == rest;
    }
  }

  /** Before the third dot, a dot is kept and counted. */
  lemma CappedCopiesDot(rest: String, dots: nat, digits: nat)
    requires dots < 3 && digits <= 3
    ensures OctetCapped("." + rest, dots, digits) == "." + OctetCapped(rest, dots + 1, 0)
  {
    assert ("." + rest)[1..] == rest;
  }

  /** Before the third dot, an octet and its dot are kept. */
  lemma CappedCopiesOctet(x: String, rest: String, dots: nat)
    requires dots < 3 && AllDigits(x)
    ensures OctetCapped(x + "." + rest, dots, 0) == x + "." + OctetCapped(rest, dots + 1, 0)
  {
    assert x + "." + rest == x + ("." + rest);
    CappedCopiesDigits(x, "." + rest, dots, 0);
    CappedCopiesDot(rest, dots, 0);
  }

  /** After the third dot, three digits are kept and nothing after them. */
  lemma CappedAtThreeDigits(d: String, rest: String)
    requires |d| == 3 && IsDigit(d[0]) && IsDigit(d[1]) && IsDigit(d[2])
    ensures OctetCapped(d + rest, 3, 0) == d
  {
    var e := d + rest;
    assert e[1..][1..][1..] == rest;
    assert OctetCapped(e[1..][1..][1..], 3, 3) == [];
    assert OctetCapped(e[1..][1..], 3, 2) == [d[2]];
    assert OctetCapped(e[1..], 3, 1) == [d[1], d[2]];
  }

  /** An address whose last octet has three digits, followed by anything,
      is cut right after that octet. */
  lemma CappedAfterFullOctet(a: String, b: String, c: String, d: String, rest: String)
    requires AllDigits(a) && AllDigits(b) && AllDigits(c)
    requires |d| == 3 && IsDigit(d[0]) && IsDigit(d[1]) && IsDigit(d[2])
    ensures OctetCapped(a + "." + b + "." + c + "." + d + rest, 0, 0) == a + "." + b + "." + c + "." + d
  {
    var r3 := c + "." + (d + rest);
    var r2 := b + "." + r3;
    assert a + "." + b + "." + c + "." + d + rest == a + "." + r2;
    CappedCopiesOctet(a, r2, 0);
    CappedCopiesOctet(b, r3, 1);
    CappedCopiesOctet(c, d + rest, 2);
    CappedAtThreeDigits(d, rest);
  }

  /** An address whose last octet has three digits, written together
      with more address characters and no separator (as docker prints the
      addresses of a container on two networks), gives exactly that
      address; `192.168.1.100172.17.0.2` gives `192.168.1.100`. */
  lemma SplitConcatenatedGivesFirst(a: String, b: String, c: String, d: String, rest: String)
    requires a != [] && AllDigits(a) && AllDigits(b) && AllDigits(c)
    requires |d| == 3 && IsDigit(d[0]) && IsDigit(d[1]) && IsDigit(d[2])
    requires forall k :: 0 <= k < |rest| ==> IsIpChar(rest[k])
    ensures FirstIpSplitConcatenated(a + "." + b + "." + c + "." + d + rest) == a + "." + b + "." + c + "." + d
  {
    var s := a + "." + b + "." + c + "." + d + rest;
    forall k | 0 <= k < |s| ensures IsIpChar(s[k]) {
      if k < |a| {
        assert s[k] == a[k];
      } else if k >= |s| - |rest| {
        assert s[k] == rest[k - (|s| - |rest|)];
      } else if k < |a| + 1 + |b| + 1 + |c| + 1 + |d| {
        var u := a + "." + b + "." + c + "." + d;
        assert s == u + rest && s[k] == u[k];
        var v := a + "." + b + "." + c + ".";
        if k >= |v| {
          assert u == v + d && u[k] == d[k - |v|];
        } else {
          var w := a + "." + b + ".";
          assert v == w + c + ".";
          if k >= |w| {
            assert v[k] == (c + ".")[k - |w|];
          } else {
            var x := a + ".";
            assert w == x + b + ".";
            if k >= |x| {
              assert w[k] == (b + ".")[k - |x|];
            } else {
              assert w[k] == x[k];
            }
          }
        }
      }
    }
    assert s[0] == a[0] && s[|s| - 1] == (if rest == [] then d[2] else rest[|rest| - 1]);
    TrimIdentity(s);
    UnseparatedInputWhole(s, AfterThirdDot);
    CappedAfterFullOctet(a, b, c, d, rest);
  }

  /** Everything the scan collects is an address character. */
  lemma {:induction false} ScanCollectsIpChars(t: String, i: nat, result: String, dots: nat, resume: Resume)
    requires i <= |t| && dots < 3
    requires forall m :: 0 <= m < |result| ==> IsIpChar(result[m])
    ensures forall m :: 0 <= m < |Scan(t, i, result, dots, resume)| ==> IsIpChar(Scan(t, i, result, dots, resume)[m])
    decreases |t| - i
  {
    if i < |t| && IsIpChar(t[i]) {
      var collected := result + [t[i]];
      var dots' := if t[i] == '.' then dots + 1 else dots;
      if dots' < 3 {
        ScanCollectsIpChars(t, i + 1, collected, dots', resume);
      }
    } else if i < |t| && result == [] {
      ScanCollectsIpChars(t, i + 1, result, dots, resume);
    }
  }

  /** The extracted address never has whitespace at either end. */
  lemma ExtractHasNoOuterWhitespace(ipString: String, resume: Resume)
    ensures NoOuterWhitespace(Extract(ipString, resume))
  {
    var t := Trim(ipString);
    var scanned := Scan(t, 0, [], 0, resume);
    ScanCollectsIpChars(t, 0, [], 0, resume);
    if scanned != [] {
      assert IsIpChar(scanned[0]) && IsIpChar(scanned[|scanned| - 1]);
    }
  }

  /**
   * With the corrected resume position the scan reads one contiguous
   * stretch of the input that does not end in the middle of a number.
   */
  lemma {:induction false} ScanIsMaximalSlice(t: String, i: nat, a: nat, dots: nat) returns (a': nat, b: nat)
    requires a <= i <= |t| && dots < 3
    ensures a' <= b <= |t| && Scan(t, i, t[a..i], dots, AfterThirdDot) == t[a'..b]
    ensures b == |t| || !IsDigit(t[b])
    decreases |t| - i
  {
    if i == |t| {
      a', b := a, i;
    } else if IsIpChar(t[i]) {
      assert t[a..i] + [t[i]] == t[a..i + 1];
      var dots' := if t[i] == '.' then dots + 1 else dots;
      if dots' == 3 {
        var e := DigitRunSlice(t, i + 1);
        assert Scan(t, i, t[a..i], dots, AfterThirdDot) == t[a..i + 1] + DigitRun(t, i + 1);
        assert t[a..i + 1] + t[i + 1..e] == t[a..e];
        a', b := a, e;
      } else {
        a', b := ScanIsMaximalSlice(t, i + 1, a, dots');
      }
    } else if t[a..i] != [] {
      a', b := a, i;
    } else {
      assert t[i + 1..i + 1] == t[a..i];
      a', b := ScanIsMaximalSlice(t, i + 1, i + 1, dots);
    }
  }

  /** The corrected extraction, when it falls back to the scan, returns a
      stretch of the trimmed input that does not stop inside a number. */
  lemma FirstIpScanIsMaximal(ipString: String) returns (a: nat, b: nat)
    requires Trim(Split(Trim(ipString), IpSeparators)[0]) == []
    ensures a <= b <= |Trim(ipString)| && FirstIp(ipString) == Trim(ipString)[a..b]
    ensures b == |Trim(ipString)| || !IsDigit(Trim(ipString)[b])
  {
    var t := Trim(ipString);
    assert t[0..0] == [];
    a, b := ScanIsMaximalSlice(t, 0, 0, 0);
    if t[a..b] == [] {
      a, b := 0, |t|;
    }
  }

  /** Input that starts with a comma has an empty first piece. */
  lemma LeadingCommaEmptyPiece(t: String)
    requires t != [] && t[0] == ','
    ensures Trim(Split(t, IpSeparators)[0]) == []
  {
    assert Split(t, IpSeparators) == [[]] + Split(t[1..], IpSeparators);
    assert Trim([]) == [];
  }

  /** On ",1.2.3.4" both scans skip the comma and collect "1.2.3" before
      meeting the third dot at index 6; these three lemmas take two
      characters each. */
  lemma ExampleScanPrefix(resume: Resume)
    ensures Scan(",1.2.3.4", 0, [], 0, resume) == Scan(",1.2.3.4", 2, "1", 0, resume)
  {
    var t: String := ",1.2.3.4";
    assert t[0] == ',' && t[1] == '1' && !IsIpChar(',') && IsIpChar('1');
    assert Scan(t, 0, [], 0, resume) == Scan(t, 1, [], 0, resume);
  }

  lemma ExampleScanFirst(resume: Resume)
    ensures Scan(",1.2.3.4", 2, "1", 0, resume) == Scan(",1.2.3.4", 4, "1.2", 1, resume)
  {
    var t: String := ",1.2.3.4";
    assert t[2] == '.' && t[3] == '2' && IsIpChar('.') && IsIpChar('2');
    assert Scan(t, 2, "1", 0, resume) == Scan(t, 3, "1.", 1, resume);
  }

  lemma ExampleScanMiddle(resume: Resume)
    ensures Scan(",1.2.3.4", 4, "1.2", 1, resume) == Scan(",1.2.3.4", 6, "1.2.3", 2, resume)
  {
    var t: String := ",1.2.3.4";
    assert t[4] == '.' && t[5] == '3' && IsIpChar('.') && IsIpChar('3');
    assert Scan(t, 4, "1.2", 1, resume) == Scan(t, 5, "1.2.", 2, resume);
  }

  lemma AsWrittenScanExample()
    ensures Scan(",1.2.3.4", 0, [], 0, AtResultLength) == "1.2.3."
  {
    var t: String := ",1.2.3.4";
    ExampleScanPrefix(AtResultLength);
    ExampleScanFirst(AtResultLength);
    ExampleScanMiddle(AtResultLength);
    assert DigitRun(t, 6) == [];
    assert Scan(t, 6, "1.2.3", 2, AtResultLength) == "1.2.3." + DigitRun(t, 6);
  }

  lemma CorrectedScanExample()
    ensures Scan(",1.2.3.4", 0, [], 0, AfterThirdDot) == "1.2.3.4"
  {
    var t: String := ",1.2.3.4";
    ExampleScanPrefix(AfterThirdDot);
    ExampleScanFirst(AfterThirdDot);
    ExampleScanMiddle(AfterThirdDot);
    assert DigitRun(t, 8) == [];
    assert DigitRun(t, 7) == "4";
    assert Scan(t, 6, "1.2.3", 2, AfterThirdDot) == "1.2.3." + DigitRun(t, 7);
  }

  /** As written, the scan of ",1.2.3.4" resumes at index 6, where it finds
      the third dot again, and loses the last octet; the corrected scan
      keeps it. */
  lemma AsWrittenDropsLastOctet()
    ensures FirstIpAsWritten(",1.2.3.4") == "1.2.3."
    ensures FirstIp(",1.2.3.4") == "1.2.3.4"
  {
    var t: String := ",1.2.3.4";
    TrimIdentity(t);
    LeadingCommaEmptyPiece(t);
    AsWrittenScanExample();
    CorrectedScanExample();
  }

  // ---------------------------------------------------------------- methods

  /** The digits of `t` from `from` on, read one at a time. */
  method ReadDigits(t: String, from: nat) returns (run: String)
    requires from <= |t|
    ensures run == DigitRun(t, from)
  {
    run := [];
    var j := from;
    while j < |t|
      invariant from <= j <= |t|
      invariant run == t[from..j]
      invariant DigitRun(t, from) == t[from..j] + DigitRun(t, j)
    {
      if !IsDigit(t[j]) {
        break;
      }
      assert t[from..j + 1] == t[from..j] + [t[j]];
      assert DigitRun(t, j) == [t[j]] + DigitRun(t, j + 1);
      AppendAssoc(t[from..j], [t[j]], DigitRun(t, j + 1));
      run := run + [t[j]];
      j := j + 1;
    }
  }

  /** The character scan over the trimmed input, with the given resume
      position for the last octet's digits. */
  method ScanChars(trimmed: String, resume: Resume) returns (result: String)
    ensures result == Scan(trimmed, 0, [], 0, resume)
  {
    result := [];
    var dotCount: nat := 0;
    var i := 0;
    while i < |trimmed|
      invariant 0 <= i <= |trimmed| && dotCount < 3 && |result| <= i
      invariant Scan(trimmed, i, result, dotCount, resume) == Scan(trimmed, 0, [], 0, resume)
    {
      var ch := trimmed[i];
      if IsIpChar(ch) {
        result := result + [ch];
        if ch == '.' {
          dotCount := dotCount + 1;
        }
        if dotCount == 3 {
          var from := if resume == AfterThirdDot then i + 1 else |result|;
          var digits := ReadDigits(trimmed, from);
          result := result + digits;
          return;
        }
      } else if result != [] {
        return;
      }
      i := i + 1;
    }
  }

  /** The extraction as written: the last octet's digits are looked for at
      the index given by the number of characters collected. */
  method ExtractFirstIpAsWritten(ipString: String) returns (r: String)
    ensures r == FirstIpAsWritten(ipString)
  {
    var trimmed := Trim(ipString);
    var firstTrimmed := Trim(Split(trimmed, IpSeparators)[0]);
    if firstTrimmed != [] {
      return firstTrimmed;
    }
    var result := ScanChars(trimmed, AtResultLength);
    r := if result == [] then trimmed else result;
  }

  /** The extraction with the digit scan resuming right after the third dot. */
  method ExtractFirstIp(ipString: String) returns (r: String)
    ensures r == FirstIp(ipString)
    ensures NoOuterWhitespace(r)
  {
    ExtractHasNoOuterWhitespace(ipString, AfterThirdDot);
    var trimmed := Trim(ipString);
    var firstTrimmed := Trim(Split(trimmed, IpSeparators)[0]);
    if firstTrimmed != [] {
      return firstTrimmed;
    }
    var result := ScanChars(trimmed, AfterThirdDot);
    r := if result == [] then trimmed else result;
  }

  /**
   * Copies the selected row's first address: no selection and a
   * selection past the end of the container list are errors, and so is a
   * clipboard that refuses the text (its answer is a parameter).
   */
  method CopyIpAddress(app: State.AppState, clipboard: Result<Unit, String>) returns (r: Result<String, String>)
    ensures app.listSelected.None? ==> r == Err("No container selected")
    ensures app.listSelected.Some? && app.listSelected.value >= |app.containers| ==> r == Err("Invalid container index")
    ensures app.listSelected.Some? && app.listSelected.value < |app.containers| ==>
      r == (if clipboard.Err? then Err("Failed to copy to clipboard: " + clipboard.error)
            else Ok(FirstIp(app.containers[app.listSelected.value].ipAddress)))
    ensures r.Ok? ==> NoOuterWhitespace(r.value)
  {
    if app.listSelected.None? {
      return Err("No container selected");
    }
    var selected := app.listSelected.value;
    if selected >= |app.containers| {
      return Err("Invalid container index");
    }
    var container := app.containers[selected];
    var firstIp := ExtractFirstIp(container.ipAddress);
    if clipboard.Err? {
      return Err("Failed to copy to clipboard: " + clipboard.error);
    }
    return Ok(firstIp);
  }
}
