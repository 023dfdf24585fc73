/** The semantic-version pattern both linters share,
    `^(0|[1-9]\d*)\.(0|[1-9]\d*)\.(0|[1-9]\d*)(?:[-+].+)?$` used with
    `re.match`: three dot-separated numbers without leading zeros, then
    optionally `-` or `+` and at least one more character. As in Python,
    `.` does not match a newline and `$` also matches just before one
    trailing newline. Digits are ASCII. */
module Semver {

  predicate IsDigit(c: char)
  {
    '0' <= c <= '9'
  }

  predicate AllDigits(t: string)
  {
    forall i :: 0 <= i < |t| ==> IsDigit(t[i])
  }

  /** `0|[1-9]\d*`: a decimal numeral without a leading zero. */
  predicate Numeral(t: string)
  {
    |t| >= 1 && AllDigits(t) && (t[0] == '0' ==> |t| == 1)
  }

  predicate NoNewline(t: string)
  {
    forall i :: 0 <= i < |t| ==> t[i] != '\n'
  }

  /** `(?:[-+].+)?$`: nothing, or `[-+]` and one or more non-newline
      characters, in both cases optionally followed by one final newline. */
  predicate Suffix(t: string)
  {
    || t == "" || t == "\n"
    || (|t| >= 2 && (t[0] == '-' || t[0] == '+') && NoNewline(t[1..]))
    || (|t| >= 3 && (t[0] == '-' || t[0] == '+') && t[|t| - 1] == '\n' && NoNewline(t[1..|t| - 1]))
  }

  /** The end of the run of digits that starts at `i`. */
  function DigitRunEnd(s: string, i: nat): (e: nat)
    requires i <= |s|
    ensures i <= e <= |s|
    ensures AllDigits(s[i..e])
    ensures e == |s| || !IsDigit(s[e])
    decreases |s| - i
  {
    if i < |s| && IsDigit(s[i]) then
      var e := DigitRunEnd(s, i + 1);
      assert s[i..e] == [s[i]] + s[i + 1..e];
      e
    else i
  }

  /** The matcher reads each numeral as the maximal run of digits at the
      front (in a match a digit never follows a numeral), then what must
      come after it. */
  predicate Matches(s: string)
  {
    var e := DigitRunEnd(s, 0);
    Numeral(s[..e]) && e < |s| && s[e] == '.' && MinorPatch(s[e + 1..])
  }

  /** `(0|[1-9]\d*)\.(0|[1-9]\d*)(?:[-+].+)?$` */
  predicate MinorPatch(s: string)
  {
    var e := DigitRunEnd(s, 0);
    Numeral(s[..e]) && e < |s| && s[e] == '.' && Patch(s[e + 1..])
  }

  /** `(0|[1-9]\d*)(?:[-+].+)?$` */
  predicate Patch(s: string)
  {
    var e := DigitRunEnd(s, 0);
    Numeral(s[..e]) && Suffix(s[e..])
  }

  /** The grammar as a language: some split of `s` into
      numeral "." numeral "." numeral suffix. */
  ghost predicate InGrammar(s: string)
  {
    exists a, b, c, t :: Numeral(a) && Numeral(b) && Numeral(c) && Suffix(t) && s == a + "." + (b + "." + (c + t))
  }

  /** A run of digits followed by a non-digit (or the end) is exactly what
      DigitRunEnd reads. */
  lemma {:induction false} RunEndsAt(s: string, i: nat, j: nat)
    requires i <= j <= |s|
    requires AllDigits(s[i..j])
    requires j == |s| || !IsDigit(s[j])
    ensures DigitRunEnd(s, i) == j
    decreases j - i
  {
    if i < j {
      assert IsDigit(s[i..j][0]);
      assert s[i + 1..j] == s[i..j][1..];
      RunEndsAt(s, i + 1, j);
    }
  }

  /** Reading a numeral followed by a dot. */
  lemma ReadDotted(x: string, y: string)
    requires Numeral(x)
    ensures var s := x + "." + y; DigitRunEnd(s, 0) == |x| && s[..|x|] == x && s[|x|] == '.' && s[|x| + 1..] == y
  {
    var s := x + "." + y;
    assert s[..|x|] == x;
    RunEndsAt(s, 0, |x|);
  }

  lemma PatchSplit(s: string) returns (c: string, t: string)
    requires Patch(s)
    ensures Numeral(c) && Suffix(t) && s == c + t
  {
    var e := DigitRunEnd(s, 0);
    c, t := s[..e], s[e..];
    assert s == c + t;
  }

  lemma GrammarPatch(c: string, t: string)
    requires Numeral(c) && Suffix(t)
    ensures Patch(c + t)
  {
    var s := c + t;
    assert s[..|c|] == c && s[|c|..] == t;
    assert |c| < |s| ==> s[|c|] == t[0];
    RunEndsAt(s, 0, |c|);
  }

  lemma MinorPatchSplit(s: string) returns (b: string, r: string)
    requires MinorPatch(s)
    ensures Numeral(b) && Patch(r) && s == b + "." + r
  {
    var e := DigitRunEnd(s, 0);
    b, r := s[..e], s[e + 1..];
    assert s == b + "." + r;
  }

  lemma MatchesSplit(s: string) returns (a: string, r: string)
    requires Matches(s)
    ensures Numeral(a) && MinorPatch(r) && s == a + "." + r
  {
    var e := DigitRunEnd(s, 0);
    a, r := s[..e], s[e + 1..];
    assert s == a + "." + r;
  }

  lemma MatchesInGrammar(s: string)
    requires Matches(s)
    ensures InGrammar(s)
  {
    var a, r := MatchesSplit(s);
    var b, r' := MinorPatchSplit(r);
    var c, t := PatchSplit(r');
    assert Numeral(a) && Numeral(b) && Numeral(c) && Suffix(t) && s == a + "." + (b + "." + (c + t));
  }

  lemma GrammarMatches(a: string, b: string, c: string, t: string)
    requires Numeral(a) && Numeral(b) && Numeral(c) && Suffix(t)
    ensures Matches(a + "." + (b + "." + (c + t)))
  {
    GrammarPatch(c, t);
    DottedMinorPatch(b, c + t);
    DottedMatches(a, b + "." + (c + t));
  }

  lemma DottedMinorPatch(b: string, r: string)
    requires Numeral(b) && Patch(r)
    ensures MinorPatch(b + "." + r)
  {
    ReadDotted(b, r);
  }

  lemma DottedMatches(a: string, r: string)
    requires Numeral(a) && MinorPatch(r)
    ensures Matches(a + "." + r)
  {
    ReadDotted(a, r);
  }

  /** The matcher recognises exactly the grammar's language. */
  lemma MatchesIffGrammar(s: string)
    ensures Matches(s) <==> InGrammar(s)
  {
    if Matches(s) {
      MatchesInGrammar(s);
    }
    if InGrammar(s) {
      var a, b, c, t :| Numeral(a) && Numeral(b) && Numeral(c) && Suffix(t) && s == a + "." + (b + "." + (c + t));
      GrammarMatches(a, b, c, t);
    }
  }

  /** Version strings the pattern accepts. */
  lemma AcceptsPlain()
    ensures Matches("1.2.3")
  {
    GrammarMatches("1", "2", "3", "");
    assert "1" + "." + ("2" + "." + ("3" + "")) == "1.2.3";
  }

  lemma AcceptsPreRelease()
    ensures Matches("0.10.0-rc.1")
  {
    assert Numeral("10") by {
      assert IsDigit("10"[0]) && IsDigit("10"[1]);
    }
    assert Suffix("-rc.1") by {
      assert NoNewline("-rc.1"[1..]);
    }
    GrammarMatches("0", "10", "0", "-rc.1");
    PreReleaseSpelled();
  }

  lemma PreReleaseSpelled()
    ensures "0" + "." + ("10" + "." + ("0" + "-rc.1")) == "0.10.0-rc.1"
  {
  }

  lemma AcceptsTrailingNewline()
    ensures Matches("1.2.3+b\n")
  {
    GrammarMatches("1", "2", "3", "+b\n");
    assert "1" + "." + ("2" + "." + ("3" + "+b\n")) == "1.2.3+b\n";
  }

  /** "1.2" lacks a patch number. */
  lemma RejectsTwoParts()
    ensures !Matches("1.2")
  {
    assert DigitRunEnd("1.2", 0) == 1;
    assert "1.2"[2..] == "2";
    assert DigitRunEnd("2", 0) == 1;
  }

  /** "01.2.3" has a leading zero. */
  lemma RejectsLeadingZero()
    ensures !Matches("01.2.3")
  {
    assert DigitRunEnd("01.2.3", 0) == 2;
    assert "01.2.3"[..2] == "01";
  }

  /** "1.2.3-" has a `-` with nothing after it. */
  lemma RejectsEmptyTag()
    ensures !Matches("1.2.3-")
  {
    assert DigitRunEnd("1.2.3-", 0) == 1;
    assert "1.2.3-"[2..] == "2.3-";
    assert DigitRunEnd("2.3-", 0) == 1;
    assert "2.3-"[2..] == "3-";
    assert DigitRunEnd("3-", 0) == 1;
    assert "3-"[1..] == "-";
  }
}
