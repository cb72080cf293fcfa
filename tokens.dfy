/** The two numeric token extractors of the namelist reader
    (sami2py/_core_class.py:305-311):

      find_int(line, ind)   = int(re.findall(r"\d+", line)[ind])
      find_float(line, ind) = float(re.findall(r"\d*\.\d+|\d+", line)[ind])

    `re.findall` scans left to right: at each position it tries the pattern
    (alternatives in order, greedy repetition with backtracking), records a
    match and resumes at its end, or moves one character on when nothing
    matches there. Both scanners below return the matches as spans of the line;
    a float token is kept as its text, and its exact decimal value is given by
    DecimalValue. */
module Tokens {
  import opened Text
  import opened Wrappers

  /** The half-open run [lo, hi) of a line. */
  datatype Span = Span(lo: nat, hi: nat)

  /** The end of the run of digits that starts at i: the first position at or
      after i that is not a digit. */
  function RunEnd(s: string, i: nat): (j: nat)
    requires i <= |s|
    ensures i <= j <= |s|
    ensures forall k :: i <= k < j ==> IsDigit(s[k])
    ensures j == |s| || !IsDigit(s[j])
    decreases |s| - i
  {
    if i < |s| && IsDigit(s[i]) then RunEnd(s, i + 1) else i
  }

  /** Any position that closes the digit run from i is RunEnd(s, i). */
  lemma RunEndIs(s: string, i: nat, h: nat)
    requires i <= h <= |s|
    requires forall k :: i <= k < h ==> IsDigit(s[k])
    requires h == |s| || !IsDigit(s[h])
    ensures RunEnd(s, i) == h
  {
  }

  /** The texts of a list of spans. */
  function Cut(s: string, spans: seq<Span>): (r: seq<string>)
    requires forall k :: 0 <= k < |spans| ==> spans[k].lo <= spans[k].hi <= |s|
    ensures |r| == |spans|
    ensures forall k :: 0 <= k < |r| ==> r[k] == s[spans[k].lo..spans[k].hi]
  {
    seq(|spans|, k requires 0 <= k < |spans| => s[spans[k].lo..spans[k].hi])
  }

  // ---------------------------------------------------------------------------
  // \d+

  /** A maximal run of digits: non-empty, digits only, and neither neighbour is
      a digit. */
  predicate IsDigitRun(s: string, sp: Span) {
    && sp.lo < sp.hi <= |s|
    && (forall k :: sp.lo <= k < sp.hi ==> IsDigit(s[k]))
    && (sp.lo == 0 || !IsDigit(s[sp.lo - 1]))
    && (sp.hi == |s| || !IsDigit(s[sp.hi]))
  }

  /** Position p lies in one of the spans. */
  predicate InSomeSpan(spans: seq<Span>, p: int) {
    spans != [] && (spans[0].lo <= p < spans[0].hi || InSomeSpan(spans[1..], p))
  }

  /** Every digit at or after position i lies in one of the spans. */
  predicate CoversDigits(s: string, i: nat, spans: seq<Span>) {
    forall p :: i <= p < |s| && IsDigit(s[p]) ==> InSomeSpan(spans, p)
  }

  /** A position in one of the spans lies in a particular one of them. */
  lemma {:induction false} InSomeSpanWitness(spans: seq<Span>, p: int) returns (k: nat)
    requires InSomeSpan(spans, p)
    ensures k < |spans| && spans[k].lo <= p < spans[k].hi
  {
    if spans[0].lo <= p < spans[0].hi {
      k := 0;
    } else {
      var k' := InSomeSpanWitness(spans[1..], p);
      k := k' + 1;
    }
  }

  /** Each span ends before the next one starts. */
  predicate StrictlyOrdered(spans: seq<Span>) {
    forall a, b :: 0 <= a < b < |spans| ==> spans[a].hi < spans[b].lo
  }

  /** The independent description of what `re.findall(r"\d+", s[i:])` finds:
      all maximal digit runs at or after i, each once, left to right. */
  predicate AreDigitRunsFrom(s: string, i: nat, spans: seq<Span>) {
    && (forall k :: 0 <= k < |spans| ==> i <= spans[k].lo && IsDigitRun(s, spans[k]))
    && StrictlyOrdered(spans)
    && CoversDigits(s, i, spans)
  }

  /** The scanner for `\d+` from position i; i is not in the middle of a run. */
  function DigitRunsFrom(s: string, i: nat): (r: seq<Span>)
    requires i <= |s|
    requires 0 < i < |s| && IsDigit(s[i]) ==> !IsDigit(s[i - 1])
    ensures forall k :: 0 <= k < |r| ==> i <= r[k].lo && IsDigitRun(s, r[k])
    decreases |s| - i
  {
    if i == |s| then []
    else if IsDigit(s[i]) then
      var j := RunEnd(s, i);
      [Span(i, j)] + DigitRunsFrom(s, j)
    else DigitRunsFrom(s, i + 1)
  }

  /** `re.findall(r"\d+", s)` as spans: the maximal digit runs of `s`, in
      order, covering every digit. */
  function DigitRuns(s: string): (r: seq<Span>)
    ensures AreDigitRunsFrom(s, 0, r)
  {
    DigitRunsFromSound(s, 0);
    DigitRunsFrom(s, 0)
  }

  /** `re.findall(r"\d+", s)`. */
  function IntTokens(s: string): (r: seq<string>)
    ensures forall k :: 0 <= k < |r| ==> |r[k]| > 0 && AllDigits(r[k])
  {
    Cut(s, DigitRuns(s))
  }

  /** `find_int(line, ind)`; None where Python raises IndexError. */
  function FindInt(line: string, ind: nat): Option<nat> {
    var tokens := IntTokens(line);
    if ind < |tokens| then Some(DigitsValue(tokens[ind])) else None
  }

  /** A span that ends before every span of a strictly ordered list can be put
      in front of it. */
  lemma StrictlyOrderedCons(first: Span, rest: seq<Span>)
    requires StrictlyOrdered(rest)
    requires forall b :: 0 <= b < |rest| ==> first.hi < rest[b].lo
    ensures StrictlyOrdered([first] + rest)
  {
    var sp := [first] + rest;
    forall a, b | 0 <= a < b < |sp| ensures sp[a].hi < sp[b].lo {
      assert sp[b] == rest[b - 1];
      if a > 0 {
        assert sp[a] == rest[a - 1];
      }
    }
  }

  lemma {:induction false} DigitRunsFromOrdered(s: string, i: nat)
    requires i <= |s|
    requires 0 < i < |s| && IsDigit(s[i]) ==> !IsDigit(s[i - 1])
    ensures StrictlyOrdered(DigitRunsFrom(s, i))
    decreases |s| - i
  {
    if i < |s| {
      if IsDigit(s[i]) {
        var j := RunEnd(s, i);
        DigitRunsFromOrdered(s, j);
        var rest := DigitRunsFrom(s, j);
        forall b | 0 <= b < |rest| ensures j < rest[b].lo {
          assert IsDigit(s[rest[b].lo]);
        }
        StrictlyOrderedCons(Span(i, j), rest);
      } else {
        DigitRunsFromOrdered(s, i + 1);
        assert DigitRunsFrom(s, i) == DigitRunsFrom(s, i + 1);
      }
    }
  }

  lemma {:induction false} DigitRunsFromCover(s: string, i: nat)
    requires i <= |s|
    requires 0 < i < |s| && IsDigit(s[i]) ==> !IsDigit(s[i - 1])
    ensures CoversDigits(s, i, DigitRunsFrom(s, i))
    decreases |s| - i
  {
    if i < |s| {
      if IsDigit(s[i]) {
        var j := RunEnd(s, i);
        DigitRunsFromCover(s, j);
        var rest := DigitRunsFrom(s, j);
        var sp := [Span(i, j)] + rest;
        assert DigitRunsFrom(s, i) == sp && sp[1..] == rest;
      } else {
        DigitRunsFromCover(s, i + 1);
      }
    }
  }

  lemma DigitRunsFromSound(s: string, i: nat)
    requires i <= |s|
    requires 0 < i < |s| && IsDigit(s[i]) ==> !IsDigit(s[i - 1])
    ensures AreDigitRunsFrom(s, i, DigitRunsFrom(s, i))
  {
    DigitRunsFromOrdered(s, i);
    DigitRunsFromCover(s, i);
  }

  lemma {:induction false} DigitRunsFromUnique(s: string, i: nat, spans: seq<Span>)
    requires i <= |s|
    requires 0 < i < |s| && IsDigit(s[i]) ==> !IsDigit(s[i - 1])
    requires AreDigitRunsFrom(s, i, spans)
    ensures spans == DigitRunsFrom(s, i)
    decreases |s| - i
  {
    if i == |s| {
      if spans != [] {
        assert false;
      }
    } else if IsDigit(s[i]) {
      var k := InSomeSpanWitness(spans, i);
      if k > 0 {
        assert false;
      }
      var h := spans[0].hi;
      RunEndIs(s, i, h);
      var rest := spans[1..];
      forall p | h <= p < |s| && IsDigit(s[p]) ensures InSomeSpan(rest, p) {
        assert InSomeSpan(spans, p);
      }
      forall b | 0 <= b < |rest| ensures h <= rest[b].lo {
        assert spans[0].hi < spans[b + 1].lo;
      }
      assert AreDigitRunsFrom(s, h, rest);
      DigitRunsFromUnique(s, h, rest);
      assert spans == [Span(i, h)] + rest;
    } else {
      forall b | 0 <= b < |spans| ensures i + 1 <= spans[b].lo {
        assert IsDigitRun(s, spans[b]);
        assert IsDigit(s[spans[b].lo]);
      }
      DigitRunsFromUnique(s, i + 1, spans);
    }
  }

  /** The `\d+` scanner finds exactly the maximal digit runs of the line, each
      once, in source order: a list of spans has those properties if and only if
      it is the scanner's output. */
  lemma DigitRunsCharacterized(s: string, spans: seq<Span>)
    ensures AreDigitRunsFrom(s, 0, spans) <==> spans == DigitRuns(s)
  {
    DigitRunsFromSound(s, 0);
    if AreDigitRunsFrom(s, 0, spans) {
      DigitRunsFromUnique(s, 0, spans);
    }
  }

  /** `find_int(line, ind)` succeeds exactly when the line has more than ind
      maximal digit runs, and then yields the value of the ind-th of them,
      counting from 0 and from the left. */
  lemma FindIntSpec(line: string, ind: nat)
    ensures FindInt(line, ind).Some? <==> ind < |DigitRuns(line)|
    ensures FindInt(line, ind).Some? ==>
      var sp := DigitRuns(line)[ind];
      && IsDigitRun(line, sp)
      && |set k | 0 <= k < ind :: DigitRuns(line)[k]| == ind
      && (forall k :: 0 <= k < ind ==> DigitRuns(line)[k].hi < sp.lo)
      && FindInt(line, ind).value == DigitsValue(line[sp.lo..sp.hi])
  {
    DigitRunsFromSound(line, 0);
    var runs := DigitRuns(line);
    if ind < |runs| {
      DistinctSpans(runs, ind);
    }
  }

  /** Strictly ordered spans are pairwise different, so the first n of them
      are n distinct runs. */
  lemma {:induction false} DistinctSpans(runs: seq<Span>, n: nat)
    requires n <= |runs|
    requires forall a, b :: 0 <= a < b < |runs| ==> runs[a].hi < runs[b].lo
    requires forall k :: 0 <= k < |runs| ==> runs[k].lo < runs[k].hi
    ensures |set k | 0 <= k < n :: runs[k]| == n
  {
    if n > 0 {
      DistinctSpans(runs, n - 1);
      var prior := set k | 0 <= k < n - 1 :: runs[k];
      assert runs[n - 1] !in prior by {
        forall k | 0 <= k < n - 1 ensures runs[k] != runs[n - 1] {
          assert runs[k].hi < runs[n - 1].lo;
        }
      }
      PrefixSetStep(runs, n);
    }
  }

  /** The elements among the first n are those among the first n - 1 and the
      n-th. */
  lemma PrefixSetStep<T>(xs: seq<T>, n: nat)
    requires 0 < n <= |xs|
    ensures (set k | 0 <= k < n :: xs[k]) == (set k | 0 <= k < n - 1 :: xs[k]) + {xs[n - 1]}
  {
  }

  // ---------------------------------------------------------------------------
  // \d*\.\d+|\d+

  /** A dotted token: digits (possibly none), one '.', then at least one digit. */
  predicate IsDotted(t: string) {
    var k := RunEnd(t, 0);
    k + 1 < |t| && t[k] == '.' && AllDigits(t[k + 1..])
  }

  /** The texts `\d*\.\d+|\d+` can match: a whole number or a dotted token. */
  predicate IsFloatToken(t: string) {
    (|t| > 0 && AllDigits(t)) || IsDotted(t)
  }

  /** Where the match of `\d*\.\d+|\d+` that starts at i ends, or i itself when
      neither alternative matches there. The dotted alternative is tried first:
      `\d*` takes the whole digit run (giving digits back cannot help, since a
      digit is not a '.'), then a '.' and a run of at least one digit must
      follow; failing that, `\d+` takes the digit run. */
  function FloatMatchEnd(s: string, i: nat): (j: nat)
    requires i <= |s|
    ensures i <= j <= |s|
    ensures j == |s| || !IsDigit(s[j])
    ensures j > i <==> i < |s| && (IsDigit(s[i]) || (s[i] == '.' && i + 1 < |s| && IsDigit(s[i + 1])))
  {
    var q := RunEnd(s, i);
    if q + 1 < |s| && s[q] == '.' && IsDigit(s[q + 1]) then RunEnd(s, q + 1) else q
  }

  /** The run end inside a cut of the line is the run end in the line. */
  lemma RunEndInCut(s: string, i: nat, j: nat)
    requires i <= j <= |s|
    requires RunEnd(s, i) <= j
    ensures RunEnd(s[i..j], 0) == RunEnd(s, i) - i
  {
    var q := RunEnd(s, i);
    RunEndIs(s[i..j], 0, q - i);
  }

  /** What the match at i covers: a whole-number match is a digit run not
      followed by '.' and a digit; a dotted match ends where its fraction's
      digits end. */
  lemma FloatMatchShape(s: string, i: nat)
    requires i <= |s|
    requires FloatMatchEnd(s, i) > i
    ensures IsFloatSpan(s, Span(i, FloatMatchEnd(s, i)))
  {
    var q := RunEnd(s, i);
    var j := FloatMatchEnd(s, i);
    if q + 1 < |s| && s[q] == '.' && IsDigit(s[q + 1]) {
      RunEndInCut(s, i, j);
      var t := s[i..j];
      assert t[q - i] == '.';
      assert t[q - i + 1..] == s[q + 1..j];
      assert !AllDigits(t);
    } else {
      assert j == q;
    }
  }

  /** The scanner for `\d*\.\d+|\d+` from position i. */
  function FloatRunsFrom(s: string, i: nat): (r: seq<Span>)
    requires i <= |s|
    ensures forall k :: 0 <= k < |r| ==> i <= r[k].lo < r[k].hi <= |s| && r[k].hi == FloatMatchEnd(s, r[k].lo)
    decreases |s| - i
  {
    if i == |s| then []
    else
      var j := FloatMatchEnd(s, i);
      if j > i then [Span(i, j)] + FloatRunsFrom(s, j) else FloatRunsFrom(s, i + 1)
  }

  /** `re.findall(r"\d*\.\d+|\d+", s)` as spans: float tokens in order,
      without overlap, covering every digit, each starting a digit run or at a
      '.' that does not follow a digit. */
  function FloatRuns(s: string): (r: seq<Span>)
    ensures IsFloatRunsFrom(s, 0, r)
  {
    FloatRunsSpec(s);
    FloatRunsFrom(s, 0)
  }

  /** `re.findall(r"\d*\.\d+|\d+", s)`. */
  function FloatTokens(s: string): seq<string> {
    Cut(s, FloatRuns(s))
  }

  /** `find_float(line, ind)` before the conversion to float: the token text;
      None where Python raises IndexError. */
  function FindFloat(line: string, ind: nat): Option<string> {
    var tokens := FloatTokens(line);
    if ind < |tokens| then Some(tokens[ind]) else None
  }

  /** Each span ends no later than the next one starts. */
  predicate Ordered(spans: seq<Span>) {
    forall a, b :: 0 <= a < b < |spans| ==> spans[a].hi <= spans[b].lo
  }

  /** A span that starts with a digit starts a digit run, and is not preceded
      by a '.' (a '.' before a digit would have started a dotted match). */
  predicate StartsRuns(s: string, spans: seq<Span>)
    requires forall k :: 0 <= k < |spans| ==> spans[k].lo < |s|
  {
    forall k {:trigger spans[k]} :: 0 <= k < |spans| && IsDigit(s[spans[k].lo]) ==>
      spans[k].lo == 0 || (!IsDigit(s[spans[k].lo - 1]) && s[spans[k].lo - 1] != '.')
  }

  /** A span that ends no later than every span of an ordered list starts can
      be put in front of it. */
  lemma OrderedCons(first: Span, rest: seq<Span>)
    requires Ordered(rest)
    requires forall b :: 0 <= b < |rest| ==> first.hi <= rest[b].lo
    ensures Ordered([first] + rest)
  {
    var sp := [first] + rest;
    forall a, b | 0 <= a < b < |sp| ensures sp[a].hi <= sp[b].lo {
      assert sp[b] == rest[b - 1];
      if a > 0 {
        assert sp[a] == rest[a - 1];
      }
    }
  }

  lemma {:induction false} FloatRunsFromOrdered(s: string, i: nat)
    requires i <= |s|
    ensures Ordered(FloatRunsFrom(s, i))
    decreases |s| - i
  {
    if i < |s| {
      var j := FloatMatchEnd(s, i);
      if j > i {
        FloatRunsFromOrdered(s, j);
        OrderedCons(Span(i, j), FloatRunsFrom(s, j));
      } else {
        FloatRunsFromOrdered(s, i + 1);
      }
    }
  }

  lemma {:induction false} FloatRunsFromCover(s: string, i: nat)
    requires i <= |s|
    ensures CoversDigits(s, i, FloatRunsFrom(s, i))
    decreases |s| - i
  {
    if i < |s| {
      var j := FloatMatchEnd(s, i);
      if j > i {
        FloatRunsFromCover(s, j);
        var rest := FloatRunsFrom(s, j);
        var sp := [Span(i, j)] + rest;
        assert FloatRunsFrom(s, i) == sp && sp[1..] == rest;
      } else {
        FloatRunsFromCover(s, i + 1);
      }
    }
  }

  lemma {:induction false} FloatRunsFromStartRuns(s: string, i: nat)
    requires i <= |s|
    requires 0 < i < |s| && IsDigit(s[i]) ==> !IsDigit(s[i - 1]) && s[i - 1] != '.'
    ensures StartsRuns(s, FloatRunsFrom(s, i))
    decreases |s| - i
  {
    if i < |s| {
      var j := FloatMatchEnd(s, i);
      if j > i {
        FloatRunsFromStartRuns(s, j);
        StartsRunsStep(s, i);
      } else {
        FloatRunsFromStartRuns(s, i + 1);
        assert FloatRunsFrom(s, i) == FloatRunsFrom(s, i + 1);
      }
    }
  }

  /** A span that starts a digit run without following a '.' can be put in
      front of spans that do the same. */
  lemma StartsRunsCons(s: string, first: Span, rest: seq<Span>)
    requires first.lo < |s| && forall k :: 0 <= k < |rest| ==> rest[k].lo < |s|
    requires 0 < first.lo && IsDigit(s[first.lo]) ==> !IsDigit(s[first.lo - 1]) && s[first.lo - 1] != '.'
    requires StartsRuns(s, rest)
    ensures StartsRuns(s, [first] + rest)
  {
    var sp := [first] + rest;
    forall k | 0 <= k < |sp| ensures sp[k] == if k == 0 then first else rest[k - 1] { }
  }

  /** One match followed by spans that start digit runs. */
  lemma StartsRunsStep(s: string, i: nat)
    requires i < |s|
    requires 0 < i && IsDigit(s[i]) ==> !IsDigit(s[i - 1]) && s[i - 1] != '.'
    requires FloatMatchEnd(s, i) > i
    requires StartsRuns(s, FloatRunsFrom(s, FloatMatchEnd(s, i)))
    ensures StartsRuns(s, FloatRunsFrom(s, i))
  {
    StartsRunsCons(s, Span(i, FloatMatchEnd(s, i)), FloatRunsFrom(s, FloatMatchEnd(s, i)));
  }

  /** The float scanner's tokens, in source order and without overlap, are
      whole numbers or dotted tokens; every digit of the line is in one of them;
      none stops before the end of a digit run; a whole-number token is never
      followed by '.' and a digit (the dotted form is tried first); and a token
      that starts with a digit starts a digit run and does not follow a '.'. */
  lemma FloatRunsSpec(s: string)
    ensures IsFloatRunsFrom(s, 0, FloatRunsFrom(s, 0))
  {
    FloatRunsFromOrdered(s, 0);
    FloatRunsFromCover(s, 0);
    FloatRunsFromStartRuns(s, 0);
    var sp := FloatRunsFrom(s, 0);
    forall k | 0 <= k < |sp| ensures IsFloatSpan(s, sp[k]) {
      FloatMatchShape(s, sp[k].lo);
    }
  }

  /** What one float token is: a whole number or a dotted token that does not
      stop inside a digit run, and a whole number is not followed by '.' and
      a digit. */
  predicate IsFloatSpan(s: string, sp: Span) {
    && sp.lo < sp.hi <= |s|
    && IsFloatToken(s[sp.lo..sp.hi])
    && (sp.hi == |s| || !IsDigit(s[sp.hi]))
    && (AllDigits(s[sp.lo..sp.hi]) ==> !(sp.hi + 1 < |s| && s[sp.hi] == '.' && IsDigit(s[sp.hi + 1])))
  }

  /** The independent description of what `re.findall(r"\d*\.\d+|\d+", s[i:])`
      finds: float tokens at or after i, in order and without overlap, that
      together cover every digit, none of which starts in the middle of a digit
      run or just after a '.'. */
  predicate IsFloatRunsFrom(s: string, i: nat, spans: seq<Span>) {
    && (forall k :: 0 <= k < |spans| ==> i <= spans[k].lo && IsFloatSpan(s, spans[k]))
    && Ordered(spans)
    && CoversDigits(s, i, spans)
    && StartsRuns(s, spans)
  }

  /** A float token can only end where the match from its start ends. */
  lemma FloatSpanIsMatch(s: string, sp: Span)
    requires IsFloatSpan(s, sp)
    ensures FloatMatchEnd(s, sp.lo) == sp.hi
  {
    if AllDigits(s[sp.lo..sp.hi]) {
      WholeSpanIsMatch(s, sp);
    } else {
      DottedSpanIsMatch(s, sp);
    }
  }

  lemma WholeSpanIsMatch(s: string, sp: Span)
    requires IsFloatSpan(s, sp) && AllDigits(s[sp.lo..sp.hi])
    ensures FloatMatchEnd(s, sp.lo) == sp.hi
  {
    var t := s[sp.lo..sp.hi];
    assert forall q :: sp.lo <= q < sp.hi ==> IsDigit(s[q]) by {
      forall q | sp.lo <= q < sp.hi ensures IsDigit(s[q]) {
        assert s[q] == t[q - sp.lo];
      }
    }
    RunEndIs(s, sp.lo, sp.hi);
  }

  lemma DottedSpanIsMatch(s: string, sp: Span)
    requires IsFloatSpan(s, sp) && !AllDigits(s[sp.lo..sp.hi])
    ensures FloatMatchEnd(s, sp.lo) == sp.hi
  {
    var t := s[sp.lo..sp.hi];
    var k := RunEnd(t, 0);
    assert forall q :: sp.lo <= q < sp.lo + k ==> IsDigit(s[q]) by {
      forall q | sp.lo <= q < sp.lo + k ensures IsDigit(s[q]) {
        assert s[q] == t[q - sp.lo];
      }
    }
    assert s[sp.lo + k] == t[k] == '.';
    RunEndIs(s, sp.lo, sp.lo + k);
    assert IsDigit(t[k + 1..][0]);
    assert forall q :: sp.lo + k + 1 <= q < sp.hi ==> IsDigit(s[q]) by {
      forall q | sp.lo + k + 1 <= q < sp.hi ensures IsDigit(s[q]) {
        assert s[q] == t[k + 1..][q - sp.lo - k - 1];
      }
    }
    RunEndIs(s, sp.lo + k + 1, sp.hi);
  }


  /** Where the scanner matches at i, the description's first span is that
      match. */
  lemma FirstFloatSpan(s: string, i: nat, spans: seq<Span>)
    requires i < |s| && FloatMatchEnd(s, i) > i
    requires IsFloatRunsFrom(s, i, spans)
    ensures spans != [] && spans[0] == Span(i, FloatMatchEnd(s, i))
  {
    var p := if IsDigit(s[i]) then i else i + 1;
    var k := InSomeSpanWitness(spans, p);
    if spans[k].lo != i {
      assert false;
    }
    if k > 0 {
      assert false;
    }
    FloatSpanIsMatch(s, spans[0]);
  }

  /** Past the first span, the rest of the description holds from its end. */
  lemma RestFloatSpans(s: string, i: nat, spans: seq<Span>)
    requires IsFloatRunsFrom(s, i, spans) && spans != []
    ensures IsFloatRunsFrom(s, spans[0].hi, spans[1..])
  {
    var h := spans[0].hi;
    var rest := spans[1..];
    forall q | h <= q < |s| && IsDigit(s[q]) ensures InSomeSpan(rest, q) {
      assert InSomeSpan(spans, q);
    }
    forall b | 0 <= b < |rest| ensures h <= rest[b].lo && IsFloatSpan(s, rest[b]) {
      assert rest[b] == spans[b + 1];
    }
    OrderedTail(spans);
    StartsRunsTail(s, spans);
  }

  lemma OrderedTail(spans: seq<Span>)
    requires Ordered(spans) && spans != []
    ensures Ordered(spans[1..])
  {
    var rest := spans[1..];
    forall a, b | 0 <= a < b < |rest| ensures rest[a].hi <= rest[b].lo {
      assert rest[a] == spans[a + 1] && rest[b] == spans[b + 1];
    }
  }

  lemma StartsRunsTail(s: string, spans: seq<Span>)
    requires forall k :: 0 <= k < |spans| ==> spans[k].lo < |s|
    requires StartsRuns(s, spans) && spans != []
    ensures StartsRuns(s, spans[1..])
  {
    var rest := spans[1..];
    forall k | 0 <= k < |rest| ensures rest[k] == spans[k + 1] { }
  }

  /** Where no float token starts at i, none of the spans starts there either. */
  lemma SkipNoMatch(s: string, i: nat, spans: seq<Span>)
    requires i < |s| && FloatMatchEnd(s, i) <= i
    requires IsFloatRunsFrom(s, i, spans)
    ensures IsFloatRunsFrom(s, i + 1, spans)
  {
    forall b | 0 <= b < |spans| ensures i + 1 <= spans[b].lo {
      FloatSpanIsMatch(s, spans[b]);
    }
  }

  lemma {:induction false} FloatRunsFromUnique(s: string, i: nat, spans: seq<Span>)
    requires i <= |s|
    requires IsFloatRunsFrom(s, i, spans)
    ensures spans == FloatRunsFrom(s, i)
    decreases |s| - i
  {
    if i == |s| {
      if spans != [] {
        assert false;
      }
    } else {
      var j := FloatMatchEnd(s, i);
      if j > i {
        FirstFloatSpan(s, i, spans);
        RestFloatSpans(s, i, spans);
        FloatRunsFromUnique(s, j, spans[1..]);
        assert spans == [Span(i, j)] + spans[1..];
      } else {
        SkipNoMatch(s, i, spans);
        FloatRunsFromUnique(s, i + 1, spans);
      }
    }
  }

  /** The float scanner finds exactly what the description says: a list of
      spans meets it if and only if it is the scanner's output. */
  lemma FloatRunsCharacterized(s: string, spans: seq<Span>)
    ensures IsFloatRunsFrom(s, 0, spans) <==> spans == FloatRuns(s)
  {
    FloatRunsSpec(s);
    if IsFloatRunsFrom(s, 0, spans) {
      FloatRunsFromUnique(s, 0, spans);
    }
  }

  /** Every float token is a whole number or a dotted token. */
  lemma FloatTokensShape(s: string)
    ensures forall k :: 0 <= k < |FloatTokens(s)| ==> IsFloatToken(FloatTokens(s)[k])
  {
    FloatRunsSpec(s);
  }

  lemma {:induction false} NoDotSameRunsFrom(s: string, i: nat)
    requires i <= |s|
    requires 0 < i < |s| && IsDigit(s[i]) ==> !IsDigit(s[i - 1])
    requires forall k :: 0 <= k < |s| ==> s[k] != '.'
    ensures FloatRunsFrom(s, i) == DigitRunsFrom(s, i)
    decreases |s| - i
  {
    if i < |s| {
      if IsDigit(s[i]) {
        NoDotSameRunsFrom(s, RunEnd(s, i));
      } else {
        NoDotSameRunsFrom(s, i + 1);
      }
    }
  }

  /** On a line without a '.', both extractors find the same tokens. */
  lemma NoDotSameTokens(s: string)
    requires forall k :: 0 <= k < |s| ==> s[k] != '.'
    ensures FloatTokens(s) == IntTokens(s)
  {
    NoDotSameRunsFrom(s, 0);
  }

  /** The examples of the dotted form: "1.5" is one token, ".5" is one
      token, and in "1." the '.' is left out because no digit follows it. */
  lemma FloatTokenExamples()
    ensures FloatTokens("1.5") == ["1.5"]
    ensures FloatTokens(".5") == [".5"]
    ensures FloatTokens("1.") == ["1"]
  {
    var a := "1.5";
    assert RunEnd(a, 3) == 3 && RunEnd(a, 2) == 3;
    assert RunEnd(a, 1) == 1 && RunEnd(a, 0) == 1;
    assert FloatMatchEnd(a, 0) == 3;
    assert FloatRuns(a) == [Span(0, 3)];
    assert a[0..3] == a;
    var b := ".5";
    assert RunEnd(b, 2) == 2 && RunEnd(b, 1) == 2 && RunEnd(b, 0) == 0;
    assert FloatMatchEnd(b, 0) == 2;
    assert FloatRuns(b) == [Span(0, 2)];
    assert b[0..2] == b;
    var c := "1.";
    assert RunEnd(c, 2) == 2 && RunEnd(c, 1) == 1 && RunEnd(c, 0) == 1;
    assert FloatMatchEnd(c, 0) == 1 && FloatMatchEnd(c, 1) == 1;
    assert FloatRunsFrom(c, 1) == FloatRunsFrom(c, 2) == [];
    assert FloatRuns(c) == [Span(0, 1)];
    assert c[0..1] == "1";
  }

  /** Where a '.' meets what comes before it: in "1.5.3" the second '.'
      starts a new dotted token, and after a letter ".5" is still ".5". */
  lemma FloatTokenNeighbourExamples()
    ensures FloatTokens("1.5.3") == ["1.5", ".3"]
    ensures FloatTokens("a.5") == [".5"]
  {
    var d := "1.5.3";
    assert RunEnd(d, 5) == 5 && RunEnd(d, 4) == 5 && RunEnd(d, 3) == 3;
    assert RunEnd(d, 2) == 3 && RunEnd(d, 1) == 1 && RunEnd(d, 0) == 1;
    assert FloatMatchEnd(d, 3) == 5 && FloatMatchEnd(d, 0) == 3;
    assert FloatRunsFrom(d, 3) == [Span(3, 5)];
    assert FloatRuns(d) == [Span(0, 3), Span(3, 5)];
    assert d[0..3] == "1.5" && d[3..5] == ".3";
    var e := "a.5";
    assert RunEnd(e, 3) == 3 && RunEnd(e, 2) == 3 && RunEnd(e, 1) == 1 && RunEnd(e, 0) == 0;
    assert FloatMatchEnd(e, 0) == 0 && FloatMatchEnd(e, 1) == 3;
    assert FloatRunsFrom(e, 1) == [Span(1, 3)];
    assert FloatRuns(e) == [Span(1, 3)];
    assert e[1..3] == ".5";
  }

  // ---------------------------------------------------------------------------
  // The value of a float token

  /** The exact decimal value `float(t)` approximates: never negative, and
      its whole part is the value of the digits before the '.' (all of them in
      a whole number). */
  function DecimalValue(t: string): (r: real)
    requires IsFloatToken(t)
    ensures var w := DigitsValue(t[..RunEnd(t, 0)]) as real; 0.0 <= w <= r < w + 1.0
  {
    if AllDigits(t) then
      RunEndIs(t, 0, |t|);
      assert t[..|t|] == t;
      DigitsValue(t) as real
    else
      var k := RunEnd(t, 0);
      Fraction(DigitsValue(t[k + 1..]), Pow10(|t| - k - 1));
      DigitsValue(t[..k]) as real + DigitsValue(t[k + 1..]) as real / Pow10(|t| - k - 1) as real
  }

  /** A token has the value 1 exactly when its whole part reads 1 and its
      fraction, if any, is all zeros: "1", "01", "1.0", "1.000". */
  lemma DecimalValueIsOne(t: string)
    requires IsFloatToken(t)
    ensures DecimalValue(t) == 1.0 <==>
      if AllDigits(t) then DigitsValue(t) == 1
      else DigitsValue(t[..RunEnd(t, 0)]) == 1 && DigitsValue(t[RunEnd(t, 0) + 1..]) == 0
  {
    if !AllDigits(t) {
      var k := RunEnd(t, 0);
      var w, f, p := DigitsValue(t[..k]), DigitsValue(t[k + 1..]), Pow10(|t| - k - 1);
      Fraction(f, p);
    }
  }

  /** A digit string's value over the matching power of ten is a fraction
      in [0, 1), zero only for a zero numerator. */
  lemma Fraction(f: nat, p: nat)
    requires f < p
    ensures 0.0 <= f as real / p as real < 1.0
    ensures f as real / p as real == 0.0 <==> f == 0
  {
    var q := f as real / p as real;
    assert q * p as real == f as real;
  }
}
