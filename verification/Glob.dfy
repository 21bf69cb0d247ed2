/** The star-backtracking matcher of cost policies, against the declarative meaning of a pattern. */
module Glob {
  import opened Wrappers

  type Byte = b: int | 0 <= b < 256

  const STAR: Byte := 42

  /** A star stands for any run of bytes, every other byte for itself. */
  predicate Matches(pattern: seq<Byte>, value: seq<Byte>)
    decreases |pattern|, 0
  {
    if pattern == [] then value == []
    else if pattern[0] == STAR then MatchesFrom(pattern[1..], value, 0)
    else value != [] && pattern[0] == value[0] && Matches(pattern[1..], value[1..])
  }

  /** The pattern matches some tail of the value that starts at `from` or later. */
  predicate MatchesFrom(pattern: seq<Byte>, value: seq<Byte>, from: nat)
    decreases |pattern|, 1
  {
    exists k: nat :: from <= k <= |value| && Matches(pattern, value[k..])
  }

  lemma FromLater(pattern: seq<Byte>, value: seq<Byte>, from: nat, k: nat)
    requires from <= k <= |value| && Matches(pattern, value[k..])
    ensures MatchesFrom(pattern, value, from)
  {
  }

  /** A star at the front matches here exactly when what follows it matches here or later. */
  lemma StarMatches(pattern: seq<Byte>, value: seq<Byte>, from: nat)
    requires pattern != [] && pattern[0] == STAR && from <= |value|
    ensures Matches(pattern, value[from..]) <==> MatchesFrom(pattern[1..], value, from)
  {
    var tail := value[from..];
    if k: nat :| k <= |tail| && Matches(pattern[1..], tail[k..]) {
      assert tail[k..] == value[from + k..];
      FromLater(pattern[1..], value, from, from + k);
    }
    if k: nat :| from <= k <= |value| && Matches(pattern[1..], value[k..]) {
      assert tail[k - from..] == value[k..];
    }
  }

  /** A prefix without stars matches itself and nothing else. */
  lemma {:induction false} LiteralPrefix(literal: seq<Byte>, rest: seq<Byte>, value: seq<Byte>)
    requires STAR !in literal
    ensures Matches(literal + rest, value) <==> literal <= value && Matches(rest, value[|literal|..])
  {
    if literal == [] {
      assert literal + rest == rest && value[0..] == value;
    } else {
      assert (literal + rest)[0] == literal[0] && (literal + rest)[1..] == literal[1..] + rest;
      if value != [] && literal[0] == value[0] {
        LiteralPrefix(literal[1..], rest, value[1..]);
        assert literal == [literal[0]] + literal[1..] && value == [value[0]] + value[1..];
        if literal[1..] <= value[1..] {
          assert value[1..][|literal| - 1..] == value[|literal|..];
        }
      }
    }
  }

  lemma {:induction false} OnlyStarsMatchNothing(pattern: seq<Byte>)
    ensures Matches(pattern, []) <==> forall i | 0 <= i < |pattern| :: pattern[i] == STAR
  {
    if pattern != [] && pattern[0] == STAR {
      OnlyStarsMatchNothing(pattern[1..]);
      StarMatches(pattern, [], 0);
      assert MatchesFrom(pattern[1..], [], 0) <==> Matches(pattern[1..], []) by {
        if Matches(pattern[1..], []) {
          FromLater(pattern[1..], [], 0, 0);
        }
      }
      assert forall i | 0 < i < |pattern| :: pattern[i] == pattern[1..][i - 1];
    }
  }

  /** Every star of the value is its last byte. */
  predicate StarsLast(value: seq<Byte>) {
    forall i | 0 <= i < |value| - 1 :: value[i] != STAR
  }

  /** A pattern that matches one star matches nothing at all as well. */
  lemma {:induction false} MatchesStarMatchesNothing(pattern: seq<Byte>)
    requires Matches(pattern, [STAR]) && pattern != []
    ensures pattern[0] == STAR && Matches(pattern[1..], [])
  {
    assert [STAR][1..] == [] && [STAR][0..] == [STAR];
    if pattern[0] == STAR {
      StarMatches(pattern, [STAR], 0);
      var k: nat :| k <= 1 && Matches(pattern[1..], [STAR][k..]);
      if k == 0 && pattern[1..] != [] {
        MatchesStarMatchesNothing(pattern[1..]);
        OnlyStarsMatchNothing(pattern[1..][1..]);
        OnlyStarsMatchNothing(pattern[1..]);
        assert forall i | 0 < i < |pattern[1..]| :: pattern[1..][i] == pattern[1..][1..][i - 1];
      }
    }
  }

  // What a position of the scan knows

  /** A match of the rest here would be a match of the whole, and so would one of what follows the last star later on. */
  ghost predicate Sound(pattern: seq<Byte>, value: seq<Byte>, p: nat, v: nat, star: Option<nat>, retry: nat)
    requires p <= |pattern| && v <= |value|
  {
    && (Matches(pattern[p..], value[v..]) ==> Matches(pattern, value))
    && (star.Some? && star.value < |pattern| && MatchesFrom(pattern[star.value + 1..], value, retry) ==>
          Matches(pattern, value))
  }

  /** When the value has no star before its end: backtracking to the last star alone loses nothing. */
  ghost predicate Complete(pattern: seq<Byte>, value: seq<Byte>, p: nat, v: nat, star: Option<nat>, retry: nat)
    requires p <= |pattern| && v <= |value|
  {
    Matches(pattern, value) ==>
      if star.None? then Matches(pattern[p..], value[v..])
      else star.value < |pattern| && MatchesFrom(pattern[star.value + 1..], value, retry)
  }

  /** Since the last star, the scan has matched bytes one for one. */
  ghost predicate Aligned(pattern: seq<Byte>, value: seq<Byte>, p: nat, v: nat, star: Option<nat>, retry: nat)
    requires p <= |pattern| && v <= |value|
  {
    star.Some? ==>
      star.value < p && retry <= v && pattern[star.value] == STAR
      && pattern[star.value + 1..p] == value[retry..v]
  }

  lemma LiteralStep(pattern: seq<Byte>, value: seq<Byte>, p: nat, v: nat, star: Option<nat>, retry: nat)
    requires p < |pattern| && v < |value| && pattern[p] == value[v]
    requires Sound(pattern, value, p, v, star, retry) && Aligned(pattern, value, p, v, star, retry)
    ensures Sound(pattern, value, p + 1, v + 1, star, retry) && Aligned(pattern, value, p + 1, v + 1, star, retry)
    ensures StarsLast(value) && Complete(pattern, value, p, v, star, retry) ==>
              Complete(pattern, value, p + 1, v + 1, star, retry)
  {
    assert pattern[p..][1..] == pattern[p + 1..] && value[v..][1..] == value[v + 1..];
    if pattern[p] == STAR {
      StarMatches(pattern[p..], value, v);
      if Matches(pattern[p + 1..], value[v + 1..]) {
        FromLater(pattern[p..][1..], value, v, v + 1);
      }
      if StarsLast(value) && Matches(pattern[p..], value[v..]) {
        assert value[v..] == [STAR] && value[v + 1..] == [];
        MatchesStarMatchesNothing(pattern[p..]);
      }
    }
    if star.Some? {
      assert pattern[star.value + 1..p + 1] == pattern[star.value + 1..p] + [pattern[p]];
      assert value[retry..v + 1] == value[retry..v] + [value[v]];
    }
  }

  lemma NoStarIn(value: seq<Byte>, from: nat, to: nat)
    requires from <= to < |value| && StarsLast(value)
    ensures STAR !in value[from..to]
  {
  }

  lemma StarStep(pattern: seq<Byte>, value: seq<Byte>, p: nat, v: nat, star: Option<nat>, retry: nat)
    requires p < |pattern| && v < |value| && pattern[p] == STAR
    requires Sound(pattern, value, p, v, star, retry) && Aligned(pattern, value, p, v, star, retry)
    ensures Sound(pattern, value, p + 1, v, Some(p), v) && Aligned(pattern, value, p + 1, v, Some(p), v)
    ensures StarsLast(value) && Complete(pattern, value, p, v, star, retry) ==>
              Complete(pattern, value, p + 1, v, Some(p), v)
  {
    assert pattern[p..][1..] == pattern[p + 1..];
    StarMatches(pattern[p..], value, v);
    if Matches(pattern[p + 1..], value[v..]) {
      FromLater(pattern[p + 1..], value, v, v);
    }
    if StarsLast(value) && Complete(pattern, value, p, v, star, retry) && Matches(pattern, value) && star.Some? {
      LaterSegment(pattern, value, p, v, star.value, retry);
    }
  }

  /** The bytes after the old star were matched as early as possible, so the new star sees every later match. */
  lemma LaterSegment(pattern: seq<Byte>, value: seq<Byte>, p: nat, v: nat, star: nat, retry: nat)
    requires star < p < |pattern| && retry <= v < |value| && pattern[p] == STAR && StarsLast(value)
    requires pattern[star + 1..p] == value[retry..v]
    requires MatchesFrom(pattern[star + 1..], value, retry)
    ensures MatchesFrom(pattern[p + 1..], value, v)
  {
    var literal := pattern[star + 1..p];
    NoStarIn(value, retry, v);
    var k: nat :| retry <= k <= |value| && Matches(pattern[star + 1..], value[k..]);
    assert pattern[star + 1..] == literal + pattern[p..];
    LiteralPrefix(literal, pattern[p..], value[k..]);
    var at := k + |literal|;
    assert value[k..][|literal|..] == value[at..];
    StarMatches(pattern[p..], value, at);
    assert pattern[p..][1..] == pattern[p + 1..];
    var j: nat :| at <= j <= |value| && Matches(pattern[p + 1..], value[j..]);
    FromLater(pattern[p + 1..], value, v, j);
  }

  lemma RetryStep(pattern: seq<Byte>, value: seq<Byte>, p: nat, v: nat, star: nat, retry: nat)
    requires p <= |pattern| && v < |value|
    requires p < |pattern| ==> pattern[p] != value[v] && pattern[p] != STAR
    requires Sound(pattern, value, p, v, Some(star), retry) && Aligned(pattern, value, p, v, Some(star), retry)
    ensures star < |pattern| && retry < |value|
    ensures Sound(pattern, value, star + 1, retry + 1, Some(star), retry + 1)
    ensures Aligned(pattern, value, star + 1, retry + 1, Some(star), retry + 1)
    ensures StarsLast(value) && Complete(pattern, value, p, v, Some(star), retry) ==>
              Complete(pattern, value, star + 1, retry + 1, Some(star), retry + 1)
  {
    if MatchesFrom(pattern[star + 1..], value, retry + 1) {
      var k: nat :| retry + 1 <= k <= |value| && Matches(pattern[star + 1..], value[k..]);
      FromLater(pattern[star + 1..], value, retry, k);
    }
    if Matches(pattern[star + 1..], value[retry + 1..]) {
      FromLater(pattern[star + 1..], value, retry, retry + 1);
    }
    if StarsLast(value) && MatchesFrom(pattern[star + 1..], value, retry) {
      var k: nat :| retry <= k <= |value| && Matches(pattern[star + 1..], value[k..]);
      if k == retry {
        Mismatch(pattern, value, p, v, star, retry);
      }
      FromLater(pattern[star + 1..], value, retry + 1, k);
    }
  }

  /** After a mismatch nothing matches where the scan last started. */
  lemma Mismatch(pattern: seq<Byte>, value: seq<Byte>, p: nat, v: nat, star: nat, retry: nat)
    requires star < p <= |pattern| && retry <= v < |value| && StarsLast(value)
    requires p < |pattern| ==> pattern[p] != value[v] && pattern[p] != STAR
    requires pattern[star + 1..p] == value[retry..v]
    ensures !Matches(pattern[star + 1..], value[retry..])
  {
    var literal := pattern[star + 1..p];
    NoStarIn(value, retry, v);
    assert pattern[star + 1..] == literal + pattern[p..];
    LiteralPrefix(literal, pattern[p..], value[retry..]);
    assert value[retry..][|literal|..] == value[v..];
  }

  lemma NoMatchWithoutStar(pattern: seq<Byte>, value: seq<Byte>, p: nat, v: nat)
    requires p <= |pattern| && v < |value|
    requires p < |pattern| ==> pattern[p] != value[v] && pattern[p] != STAR
    ensures !Matches(pattern[p..], value[v..])
  {
  }

  lemma AtEnd(pattern: seq<Byte>, value: seq<Byte>, p: nat, star: Option<nat>, retry: nat)
    requires p <= |pattern| && Aligned(pattern, value, p, |value|, star, retry)
    requires StarsLast(value) && Complete(pattern, value, p, |value|, star, retry) && Matches(pattern, value)
    ensures Matches(pattern[p..], [])
  {
    hide Matches, StarsLast;
    assert value[|value|..] == [];
    if star.Some? {
      var s := star.value;
      var k: nat :| retry <= k <= |value| && Matches(pattern[s + 1..], value[k..]);
      if retry == |value| {
        assert |pattern[s + 1..p]| == 0;
        assert k == |value|;
      } else {
        assert value[retry..|value|] == value[retry..];
        EndOfSegment(pattern, value, p, s, retry, k);
      }
    }
  }

  /** The bytes matched since the last star end the value, and only their last can be a star. */
  lemma EndOfSegment(pattern: seq<Byte>, value: seq<Byte>, p: nat, s: nat, retry: nat, k: nat)
    requires s < p <= |pattern| && retry < |value| && retry <= k <= |value| && StarsLast(value)
    requires pattern[s + 1..p] == value[retry..] && Matches(pattern[s + 1..], value[k..])
    ensures Matches(pattern[p..], [])
  {
    var literal := pattern[s + 1..p - 1];
    var last := |value| - 1;
    assert |literal| == last - retry;
    assert pattern[s + 1..p] == literal + [pattern[p - 1]];
    assert value[retry..] == value[retry..last] + [value[last]];
    assert literal == value[retry..last] && pattern[p - 1] == value[last];
    NoStarIn(value, retry, last);
    assert pattern[s + 1..] == literal + pattern[p - 1..];
    LiteralPrefix(literal, pattern[p - 1..], value[k..]);
    assert value[k..][|literal|..] == value[k + |literal|..];
    assert pattern[p - 1..][1..] == pattern[p..];
    LastByte(pattern[p - 1..], value, k + |literal|);
  }

  lemma LastByte(pattern: seq<Byte>, value: seq<Byte>, at: nat)
    requires pattern != [] && value != [] && |value| - 1 <= at <= |value| && pattern[0] == value[|value| - 1]
    requires Matches(pattern, value[at..])
    ensures Matches(pattern[1..], [])
  {
    if at == |value| {
      assert value[at..] == [];
      OnlyStarsMatchNothing(pattern);
      OnlyStarsMatchNothing(pattern[1..]);
    } else {
      assert value[at..] == [pattern[0]] && value[at..][1..] == [];
      if pattern[0] == STAR {
        MatchesStarMatchesNothing(pattern);
      }
    }
  }

  lemma Start(pattern: seq<Byte>, value: seq<Byte>)
    ensures Sound(pattern, value, 0, 0, None, 0) && Aligned(pattern, value, 0, 0, None, 0)
    ensures Complete(pattern, value, 0, 0, None, 0)
  {
    assert pattern[0..] == pattern && value[0..] == value;
  }

  lemma Finish(pattern: seq<Byte>, value: seq<Byte>, p: nat, star: Option<nat>, retry: nat)
    requires p <= |pattern|
    requires Sound(pattern, value, p, |value|, star, retry) && Aligned(pattern, value, p, |value|, star, retry)
    ensures (forall i | p <= i < |pattern| :: pattern[i] == STAR) ==> Matches(pattern, value)
    ensures StarsLast(value) && Complete(pattern, value, p, |value|, star, retry) && Matches(pattern, value) ==>
              forall i | p <= i < |pattern| :: pattern[i] == STAR
  {
    hide Matches, MatchesFrom, Aligned, StarsLast;
    assert value[|value|..] == [];
    OnlyStarsMatchNothing(pattern[p..]);
    assert forall i | p <= i < |pattern| :: pattern[i] == pattern[p..][i - p];
    if StarsLast(value) && Complete(pattern, value, p, |value|, star, retry) && Matches(pattern, value) {
      AtEnd(pattern, value, p, star, retry);
    }
  }

  lemma Stuck(pattern: seq<Byte>, value: seq<Byte>, p: nat, v: nat, retry: nat)
    requires p <= |pattern| && v < |value|
    requires p < |pattern| ==> pattern[p] != value[v] && pattern[p] != STAR
    requires Complete(pattern, value, p, v, None, retry)
    ensures !Matches(pattern, value)
  {
    NoMatchWithoutStar(pattern, value, p, v);
  }

  /** What the scan answers from a position on. */
  predicate Scanned(pattern: seq<Byte>, value: seq<Byte>, p: nat, v: nat, star: Option<nat>, retry: nat)
    requires p <= |pattern| && retry <= v <= |value| && (star.Some? ==> star.value < p)
    decreases |pattern| - (if star.Some? then star.value + 1 else 0), |value| - retry, |value| - v
  {
    if v == |value| then forall i | p <= i < |pattern| :: pattern[i] == STAR
    else if p < |pattern| && pattern[p] == value[v] then Scanned(pattern, value, p + 1, v + 1, star, retry)
    else if p < |pattern| && pattern[p] == STAR then Scanned(pattern, value, p + 1, v, Some(p), v)
    else if star.Some? then Scanned(pattern, value, star.value + 1, retry + 1, star, retry + 1)
    else false
  }

  /** Whatever the scan accepts matches, and it accepts all that matches a value without stars before its end. */
  lemma {:induction false} ScanFrom(pattern: seq<Byte>, value: seq<Byte>, p: nat, v: nat, star: Option<nat>, retry: nat)
    requires p <= |pattern| && retry <= v <= |value| && (star.Some? ==> star.value < p)
    requires Sound(pattern, value, p, v, star, retry) && Aligned(pattern, value, p, v, star, retry)
    requires StarsLast(value) ==> Complete(pattern, value, p, v, star, retry)
    ensures Scanned(pattern, value, p, v, star, retry) ==> Matches(pattern, value)
    ensures StarsLast(value) && Matches(pattern, value) ==> Scanned(pattern, value, p, v, star, retry)
    decreases |pattern| - (if star.Some? then star.value + 1 else 0), |value| - retry, |value| - v
  {
    hide Matches, MatchesFrom, Sound, Complete, Aligned, StarsLast;
    if v == |value| {
      Finish(pattern, value, p, star, retry);
    } else if p < |pattern| && pattern[p] == value[v] {
      LiteralStep(pattern, value, p, v, star, retry);
      ScanFrom(pattern, value, p + 1, v + 1, star, retry);
    } else if p < |pattern| && pattern[p] == STAR {
      StarStep(pattern, value, p, v, star, retry);
      ScanFrom(pattern, value, p + 1, v, Some(p), v);
    } else if star.Some? {
      RetryStep(pattern, value, p, v, star.value, retry);
      ScanFrom(pattern, value, star.value + 1, retry + 1, star, retry + 1);
    } else if StarsLast(value) {
      Stuck(pattern, value, p, v, retry);
    }
  }

  /** The scan from the start. */
  predicate Accepts(pattern: seq<Byte>, value: seq<Byte>) {
    Scanned(pattern, value, 0, 0, None, 0)
  }

  lemma AcceptsMatches(pattern: seq<Byte>, value: seq<Byte>)
    ensures Accepts(pattern, value) ==> Matches(pattern, value)
    ensures StarsLast(value) ==> (Accepts(pattern, value) <==> Matches(pattern, value))
  {
    Start(pattern, value);
    ScanFrom(pattern, value, 0, 0, None, 0);
  }

  /** glob_matches */
  method GlobMatches(pattern: seq<Byte>, value: seq<Byte>) returns (ok: bool)
    ensures ok == Accepts(pattern, value)
    ensures ok ==> Matches(pattern, value)
    ensures StarsLast(value) ==> (ok <==> Matches(pattern, value))
  {
    hide Matches, StarsLast;
    AcceptsMatches(pattern, value);
    var patternIndex, valueIndex := 0, 0;
    var star: Option<nat> := None;
    var retryValue := 0;
    while valueIndex < |value|
      invariant 0 <= patternIndex <= |pattern| && 0 <= retryValue <= valueIndex <= |value|
      invariant star.Some? ==> star.value < patternIndex
      invariant Accepts(pattern, value) == Scanned(pattern, value, patternIndex, valueIndex, star, retryValue)
      decreases |pattern| - (if star.Some? then star.value + 1 else 0), |value| - retryValue, |value| - valueIndex
    {
      if patternIndex < |pattern| && pattern[patternIndex] == value[valueIndex] {
        patternIndex := patternIndex + 1;
        valueIndex := valueIndex + 1;
      } else if patternIndex < |pattern| && pattern[patternIndex] == STAR {
        star := Some(patternIndex);
        patternIndex := patternIndex + 1;
        retryValue := valueIndex;
      } else if star.Some? {
        patternIndex := star.value + 1;
        retryValue := retryValue + 1;
        valueIndex := retryValue;
      } else {
        return false;
      }
    }
    ghost var rest := patternIndex;
    while patternIndex < |pattern| && pattern[patternIndex] == STAR
      invariant rest <= patternIndex <= |pattern|
      invariant forall i | rest <= i < patternIndex :: pattern[i] == STAR
    {
      patternIndex := patternIndex + 1;
    }
    ok := patternIndex == |pattern|;
  }

  // Where the scan and the meaning part

  /** Scanning a prefix that is the value's own. */
  lemma {:induction false} PrefixScan(pattern: seq<Byte>, value: seq<Byte>, n: nat)
    requires n <= |pattern| && n <= |value| && pattern[..n] == value[..n]
    ensures Accepts(pattern, value) == Scanned(pattern, value, n, n, None, 0)
  {
    if n > 0 {
      assert pattern[..n - 1] == pattern[..n][..n - 1] && value[..n - 1] == value[..n][..n - 1];
      assert pattern[n - 1] == pattern[..n][n - 1] && value[n - 1] == value[..n][n - 1];
      PrefixScan(pattern, value, n - 1);
    }
  }

  /**
    A star before the value's end defeats the scan: cut the value at its first star and end the pattern with a
    star there. The scan takes that star literally and does not come back, although it stands for the rest.
   */
  lemma EarlyStarIsMissed(value: seq<Byte>, i: nat)
    requires i < |value| - 1 && value[i] == STAR && STAR !in value[..i]
    ensures Matches(value[..i] + [STAR], value) && !Accepts(value[..i] + [STAR], value)
  {
    var pattern := value[..i] + [STAR];
    LiteralPrefix(value[..i], [STAR], value);
    var rest := value[i..];
    assert rest[|rest|..] == [] && [STAR][1..] == [] && rest[0..] == rest;
    FromLater([], rest, 0, |rest|);
    assert pattern[..i] == value[..i];
    PrefixScan(pattern, value, i);
  }

  lemma {:induction false} FirstStar(value: seq<Byte>, i: nat) returns (first: nat)
    requires i < |value| && value[i] == STAR
    ensures first <= i && value[first] == STAR && STAR !in value[..first]
  {
    if STAR in value[..i] {
      var j: nat :| j < i && value[..i][j] == STAR;
      first := FirstStar(value, j);
    } else {
      first := i;
    }
  }

  /** Exactly the values without a star before their end are matched as declared by every pattern. */
  lemma DecidesIff(value: seq<Byte>)
    ensures (forall pattern: seq<Byte> :: Accepts(pattern, value) <==> Matches(pattern, value)) <==> StarsLast(value)
  {
    hide Matches, Accepts;
    if StarsLast(value) {
      forall pattern: seq<Byte>
        ensures Accepts(pattern, value) <==> Matches(pattern, value)
      {
        AcceptsMatches(pattern, value);
      }
    } else {
      var i: nat :| i < |value| - 1 && value[i] == STAR;
      var first := FirstStar(value, i);
      EarlyStarIsMissed(value, first);
    }
  }

  /** Scanning the part of a pattern behind its last star, before a star was taken as one, compares bytes. */
  lemma {:induction false} LiteralScan(pattern: seq<Byte>, value: seq<Byte>, p: nat, v: nat)
    requires p <= |pattern| && v <= |value| && STAR !in pattern[p..]
    ensures Scanned(pattern, value, p, v, None, 0) <==> pattern[p..] == value[v..]
    decreases |value| - v
  {
    assert p < |pattern| ==> pattern[p..][0] == pattern[p] && pattern[p..][1..] == pattern[p + 1..];
    if v == |value| {
      assert value[v..] == [];
    } else if p < |pattern| {
      assert pattern[p..] == [pattern[p]] + pattern[p + 1..] && value[v..] == [value[v]] + value[v + 1..];
      if pattern[p] == value[v] {
        LiteralScan(pattern, value, p + 1, v + 1);
      }
    }
  }

  /** And a pattern without a star is matched as declared by every value. */
  lemma LiteralPatternDecides(pattern: seq<Byte>, value: seq<Byte>)
    requires STAR !in pattern
    ensures Accepts(pattern, value) <==> Matches(pattern, value)
  {
    assert pattern[0..] == pattern && value[0..] == value;
    LiteralScan(pattern, value, 0, 0);
    LiteralPrefix(pattern, [], value);
    assert pattern + [] == pattern;
    if pattern <= value && value[|pattern|..] == [] {
      assert value == value[..|pattern|] + value[|pattern|..];
    }
  }

  /** A pattern matches its own text, stars and all. */
  lemma {:induction false} OwnTextMatches(pattern: seq<Byte>, rest: seq<Byte>, value: seq<Byte>)
    requires Matches(rest, value)
    ensures Matches(pattern + rest, pattern + value)
  {
    if pattern == [] {
      assert pattern + rest == rest && pattern + value == value;
    } else {
      OwnTextMatches(pattern[1..], rest, value);
      assert (pattern + rest)[0] == pattern[0] && (pattern + rest)[1..] == pattern[1..] + rest;
      assert (pattern + value)[0] == pattern[0] && (pattern + value)[1..] == pattern[1..] + value;
      if pattern[0] == STAR {
        FromLater(pattern[1..] + rest, pattern + value, 0, 1);
      }
    }
  }

  /** What follows the last star, a byte pushed in behind that star. */
  function Pushed(pattern: seq<Byte>, last: nat): seq<Byte>
    requires last < |pattern|
  {
    pattern[..last + 1] + [0] + pattern[last + 1..]
  }

  /** The text around the last star, with the pattern's star in the middle and with the pushed byte behind it. */
  lemma PushedParts(pattern: seq<Byte>, last: nat)
    requires last < |pattern| && pattern[last] == STAR
    ensures pattern == pattern[..last] + ([STAR] + pattern[last + 1..])
    ensures Pushed(pattern, last) == pattern[..last] + ([STAR, 0] + pattern[last + 1..])
    ensures ([STAR, 0] + pattern[last + 1..])[2..] == pattern[last + 1..]
  {
    assert pattern[..last + 1] == pattern[..last] + [STAR];
  }

  lemma PushedMatches(pattern: seq<Byte>, last: nat)
    requires last < |pattern| && pattern[last] == STAR
    ensures Matches(pattern, Pushed(pattern, last))
  {
    hide Matches, Pushed;
    var after := pattern[last + 1..];
    OwnText(after);
    PushedParts(pattern, last);
    StarTakes(after, [STAR, 0] + after);
    OwnTextMatches(pattern[..last], [STAR] + after, [STAR, 0] + after);
  }

  lemma OwnText(pattern: seq<Byte>)
    ensures Matches(pattern, pattern)
  {
    hide Matches;
    NothingMatchesNothing();
    OwnTextMatches(pattern, [], []);
    assert pattern + [] == pattern;
  }

  lemma NothingMatchesNothing()
    ensures Matches([], [])
  {
  }

  lemma StarTakes(after: seq<Byte>, tail: seq<Byte>)
    requires |tail| >= 2 && tail[2..] == after && Matches(after, after)
    ensures Matches([STAR] + after, tail)
  {
    assert ([STAR] + after)[1..] == after;
    FromLater(after, tail, 0, 2);
  }

  /** The scan takes every star of the text literally, and has none to come back to when the byte does not fit. */
  lemma PushedIsMissed(pattern: seq<Byte>, last: nat)
    requires last < |pattern| && STAR !in pattern[last + 1..]
    ensures !Accepts(pattern, Pushed(pattern, last))
  {
    hide Accepts, Scanned;
    var value := Pushed(pattern, last);
    assert pattern[..last + 1] == value[..last + 1];
    PrefixScan(pattern, value, last + 1);
    LiteralScan(pattern, value, last + 1, last + 1);
    assert |value[last + 1..]| == |pattern[last + 1..]| + 1;
  }

  lemma {:induction false} LastStar(pattern: seq<Byte>, i: nat) returns (last: nat)
    requires i < |pattern| && pattern[i] == STAR
    ensures i <= last < |pattern| && pattern[last] == STAR && STAR !in pattern[last + 1..]
    decreases |pattern| - i
  {
    if STAR in pattern[i + 1..] {
      var j: nat :| j < |pattern| - i - 1 && pattern[i + 1..][j] == STAR;
      last := LastStar(pattern, i + 1 + j);
    } else {
      last := i;
    }
  }

  /** Exactly the patterns without a star are matched as declared by every value. */
  lemma PatternDecidesIff(pattern: seq<Byte>)
    ensures (forall value: seq<Byte> :: Accepts(pattern, value) <==> Matches(pattern, value)) <==> STAR !in pattern
  {
    hide Matches, Accepts;
    if STAR in pattern {
      var i: nat :| i < |pattern| && pattern[i] == STAR;
      var last := LastStar(pattern, i);
      PushedMatches(pattern, last);
      PushedIsMissed(pattern, last);
    } else {
      forall value: seq<Byte>
        ensures Accepts(pattern, value) <==> Matches(pattern, value)
      {
        LiteralPatternDecides(pattern, value);
      }
    }
  }
}
