/** The phone filter `(\+?\d{1,3}[- ]?)?\d{10}`, used with `search`: a text
    is taken as a phone number when the pattern matches anywhere in it.
    `\d` is modelled as the ASCII digits. */
module PhoneFilter {

  predicate IsDigit(c: char) {
    '0' <= c <= '9'
  }

  predicate AllDigits(t: string) {
    forall k :: 0 <= k < |t| ==> IsDigit(t[k])
  }

  /** `t` matches the optional country-code group `\+?\d{1,3}[- ]?`. A leading
      '+' can only be the `\+?` and a trailing '-' or ' ' only the `[- ]?`, so
      peeling them off leaves the one possible digit core. */
  predicate PrefixGroup(t: string) {
    var body := if |t| > 0 && t[0] == '+' then t[1..] else t;
    var core := if |body| > 0 && (body[|body| - 1] == '-' || body[|body| - 1] == ' ')
                then body[..|body| - 1] else body;
    1 <= |core| <= 3 && AllDigits(core)
  }

  /** The pattern matches `s[i..j+10]`: the group takes `s[i..j]` (or is
      skipped when i == j) and `\d{10}` takes the next ten characters. */
  predicate MatchAt(s: string, i: int, j: int) {
    && 0 <= i <= j && j + 10 <= |s|
    && (i == j || PrefixGroup(s[i..j]))
    && AllDigits(s[j..j + 10])
  }

  /** `phone_regex.search(s)` succeeds. */
  ghost predicate RegexSearch(s: string) {
    exists i, j :: MatchAt(s, i, j)
  }

  /** Ten consecutive digits start at position k. */
  predicate DigitRunAt(s: string, k: int) {
    0 <= k && k + 10 <= |s| && AllDigits(s[k..k + 10])
  }

  ghost predicate HasDigitRun(s: string) {
    exists k :: DigitRunAt(s, k)
  }

  /** The optional group never adds or removes a match: the search succeeds
      exactly when the text holds ten consecutive digits. */
  lemma SearchIsDigitRun(s: string)
    ensures RegexSearch(s) <==> HasDigitRun(s)
  {
    if RegexSearch(s) {
      var i, j :| MatchAt(s, i, j);
      assert DigitRunAt(s, j);
    }
    if HasDigitRun(s) {
      var k :| DigitRunAt(s, k);
      assert MatchAt(s, k, k);
    }
  }

  /** Scans left to right from position i, where `run` digits end just before
      i; succeeds once a run reaches ten. */
  function Scan(s: string, i: nat, run: nat): bool
    requires run <= i <= |s| && run <= 10
    decreases |s| - i
  {
    if run == 10 then true
    else if i == |s| then false
    else if IsDigit(s[i]) then Scan(s, i + 1, run + 1)
    else Scan(s, i + 1, 0)
  }

  /** The executable filter the dispatcher uses. */
  function PhoneMatch(s: string): bool {
    Scan(s, 0, 0)
  }

  /** The scan's loop invariant: `run` is the length of the maximal digit run
      ending at i, and no ten-digit run fits before i. */
  ghost predicate ScanInvariant(s: string, i: nat, run: nat) {
    && run <= i <= |s| && run <= 10
    && AllDigits(s[i - run..i])
    && (i - run == 0 || !IsDigit(s[i - run - 1]))
    && (run < 10 ==> forall k :: 0 <= k && k + 10 <= i ==> !DigitRunAt(s, k))
  }

  lemma {:induction false} ScanCorrect(s: string, i: nat, run: nat)
    requires ScanInvariant(s, i, run)
    ensures Scan(s, i, run) <==> HasDigitRun(s)
    decreases |s| - i
  {
    if run == 10 {
      assert s[i - 10..i] == s[i - run..i];
      assert DigitRunAt(s, i - 10);
    } else if i == |s| {
    } else if IsDigit(s[i]) {
      assert s[i - run..i + 1] == s[i - run..i] + [s[i]];
      if run + 1 < 10 {
        forall k | 0 <= k && k + 10 <= i + 1
          ensures !DigitRunAt(s, k)
        {
          if k + 10 == i + 1 {
            // the window reaches back past the start of the run
            assert !IsDigit(s[i - run - 1]);
            assert s[k..k + 10][i - run - 1 - k] == s[i - run - 1];
          }
        }
      }
      ScanCorrect(s, i + 1, run + 1);
    } else {
      forall k | 0 <= k && k + 10 <= i + 1
        ensures !DigitRunAt(s, k)
      {
        if k + 10 == i + 1 {
          assert s[k..k + 10][9] == s[i];
        }
      }
      ScanCorrect(s, i + 1, 0);
    }
  }

  /** The executable filter decides the regular-expression search. */
  lemma PhoneMatchIsSearch(s: string)
    ensures PhoneMatch(s) <==> RegexSearch(s)
  {
    ScanCorrect(s, 0, 0);
    SearchIsDigitRun(s);
  }

  /** Numbers written as one digit block pass the filter, with or without a
      country code; a number broken by inner separators does not, and neither
      does a text with fewer than ten digits in a row. */
  lemma FilterExamples()
    ensures RegexSearch("+79991234567")
    ensures RegexSearch("89991234567")
    ensures RegexSearch("+7 9991234567")
    ensures !RegexSearch("999 123 45 67")
    ensures !RegexSearch("123456789")
  {
    assert MatchAt("+79991234567", 0, 2);
    assert MatchAt("89991234567", 0, 1);
    assert "+7 9991234567"[0..3] == "+7 ";
    assert PrefixGroup("+7 ") by {
      assert "+7 "[1..] == "7 " && "7 "[..1] == "7";
    }
    assert MatchAt("+7 9991234567", 0, 3);
    var t := "999 123 45 67";
    forall k | 0 <= k && k + 10 <= |t|
      ensures !DigitRunAt(t, k)
    {
      assert t[k..k + 10][7 - k] == t[7] == ' ';
    }
    SearchIsDigitRun(t);
    SearchIsDigitRun("123456789");
  }
}
