/**
 * The helpers of src/lib/utils.ts: a copying Fisher-Yates shuffle and the
 * MarkdownV2 escaper. The shuffle's specification (FisherYates) is shared
 * with the in-place shuffle of the prototype bot.
 */
module Utils {

  function Min(a: int, b: int): int {
    if a <= b then a else b
  }

  /** A prefix holds no element more often than the whole sequence (`.slice(0, k)`). */
  lemma PrefixSubMultiset<T>(s: seq<T>, k: nat)
    requires k <= |s|
    ensures multiset(s[..k]) <= multiset(s)
  {
    assert s == s[..k] + s[k..];
  }

  // ---------------------------------------------------------------------
  // Fisher-Yates shuffle
  // ---------------------------------------------------------------------

  /**
   * The random draws of a shuffle of `n` elements: `picks[i]` is the index
   * `j = floor(random() * (i + 1))` drawn at step `i`, so `0 <= j <= i`.
   * Step 0 is never run; its entry is 0.
   */
  predicate ValidPicks(picks: seq<nat>, n: nat) {
    |picks| == n && forall i :: 0 <= i < n ==> picks[i] <= i
  }

  /**
   * Turns an arbitrary stream of raw draws into valid picks for `n`
   * elements (a draw above `i` is clamped to `i`); every valid pick
   * sequence is reachable, since it maps to itself.
   */
  function Picks(raw: seq<nat>, n: nat): (picks: seq<nat>)
    ensures ValidPicks(picks, n)
    ensures ValidPicks(raw, n) ==> picks == raw
  {
    seq(n, i requires 0 <= i => if i < |raw| && raw[i] <= i then raw[i] else i)
  }

  /** `[a[i], a[j]] = [a[j], a[i]]` on a sequence. */
  function Swap<T>(s: seq<T>, i: nat, j: nat): (r: seq<T>)
    requires i < |s| && j < |s|
    ensures |r| == |s|
  {
    s[i := s[j]][j := s[i]]
  }

  /** A swap is a permutation. */
  lemma SwapPermutes<T>(s: seq<T>, i: nat, j: nat)
    requires i < |s| && j < |s|
    ensures multiset(Swap(s, i, j)) == multiset(s)
  {
  }

  /** The swaps of steps `i`, `i - 1`, ..., `1` of the downward loop, applied to `s`. */
  function ShuffleDown<T>(s: seq<T>, picks: seq<nat>, i: int): seq<T>
    requires ValidPicks(picks, |s|) && i < |s|
    decreases i
  {
    if i <= 0 then s else ShuffleDown(Swap(s, i, picks[i]), picks, i - 1)
  }

  /** The result of `for (i = n - 1; i > 0; i--) swap(i, picks[i])` on `s`. */
  function FisherYates<T>(s: seq<T>, picks: seq<nat>): seq<T>
    requires ValidPicks(picks, |s|)
  {
    ShuffleDown(s, picks, |s| - 1)
  }

  lemma {:induction false} ShuffleDownPermutes<T>(s: seq<T>, picks: seq<nat>, i: int)
    requires ValidPicks(picks, |s|) && i < |s|
    ensures |ShuffleDown(s, picks, i)| == |s|
    ensures multiset(ShuffleDown(s, picks, i)) == multiset(s)
    decreases i
  {
    if i > 0 {
      SwapPermutes(s, i, picks[i]);
      ShuffleDownPermutes(Swap(s, i, picks[i]), picks, i - 1);
    }
  }

  /** Whatever the draws, the shuffle is a permutation; short inputs come back unchanged. */
  lemma FisherYatesPermutes<T>(s: seq<T>, picks: seq<nat>)
    requires ValidPicks(picks, |s|)
    ensures |FisherYates(s, picks)| == |s|
    ensures multiset(FisherYates(s, picks)) == multiset(s)
    ensures |s| <= 1 ==> FisherYates(s, picks) == s
  {
    ShuffleDownPermutes(s, picks, |s| - 1);
  }

  /**
   * `shuffleArray`: copies the argument (`array.slice()`) and shuffles the
   * copy with the downward swap loop; the argument itself is not modified
   * (there is no `modifies` clause).
   */
  method ShuffleCopy<T>(a: array<T>, picks: seq<nat>) returns (r: array<T>)
    requires ValidPicks(picks, a.Length)
    ensures fresh(r)
    ensures r[..] == FisherYates(a[..], picks)
    ensures multiset(r[..]) == multiset(a[..])
  {
    r := new T[a.Length](k requires 0 <= k < a.Length reads a => a[k]);
    assert r[..] == a[..];
    var i := r.Length - 1;
    while i > 0
      invariant -1 <= i < r.Length == a.Length
      invariant ShuffleDown(r[..], picks, i) == FisherYates(a[..], picks)
    {
      var j := picks[i];
      ghost var before := r[..];
      r[i], r[j] := r[j], r[i];
      assert r[..] == Swap(before, i, j);
      i := i - 1;
    }
    FisherYatesPermutes(a[..], picks);
  }

  // ---------------------------------------------------------------------
  // MarkdownV2 escaping
  // ---------------------------------------------------------------------

  /** One `replaceAll(c, '\\' + c)` pass: a backslash is put before every `c`. */
  function EscapeAll(s: string, c: char): string
  {
    if s == [] then [] else (if s[0] == c then ['\\', c] else [s[0]]) + EscapeAll(s[1..], c)
  }

  /** `escapeString`: three passes, for `(`, then `)`, then `.`. */
  function Escape(text: string): string
  {
    EscapeAll(EscapeAll(EscapeAll(text, '('), ')'), '.')
  }

  /** The characters `escapeString` escapes. */
  predicate IsSpecial(c: char) {
    c == '(' || c == ')' || c == '.'
  }

  /** Reference definition: each character on its own, escaped if special. */
  function EscapeChar(c: char): string {
    if IsSpecial(c) then ['\\', c] else [c]
  }

  function EscapeEach(s: string): string {
    if s == [] then [] else EscapeChar(s[0]) + EscapeEach(s[1..])
  }

  /** The number of characters `escapeString` escapes. */
  function SpecialCount(s: string): nat {
    if s == [] then 0 else (if IsSpecial(s[0]) then 1 else 0) + SpecialCount(s[1..])
  }

  lemma {:induction false} EscapeAllConcat(a: string, b: string, c: char)
    ensures EscapeAll(a + b, c) == EscapeAll(a, c) + EscapeAll(b, c)
  {
    if a != [] {
      assert (a + b)[1..] == a[1..] + b;
      EscapeAllConcat(a[1..], b, c);
    } else {
      assert a + b == b;
    }
  }

  /**
   * The three sequential passes never interfere (a pass only inserts
   * backslashes, which no later pass touches): `escapeString` escapes each
   * `(`, `)` and `.` with one backslash and leaves every other character alone.
   */
  lemma {:induction false} EscapeIsPerCharacter(s: string)
    ensures Escape(s) == EscapeEach(s)
  {
    if s != [] {
      var x, t := s[0], s[1..];
      assert s == [x] + t;
      EscapeAllConcat([x], t, '(');
      EscapeAllConcat(EscapeAll([x], '('), EscapeAll(t, '('), ')');
      EscapeAllConcat(EscapeAll(EscapeAll([x], '('), ')'), EscapeAll(EscapeAll(t, '('), ')'), '.');
      assert Escape(s) == Escape([x]) + Escape(t);
      EscapeIsPerCharacter(t);
    }
  }

  lemma {:induction false} EscapeEachLength(s: string)
    ensures |EscapeEach(s)| == |s| + SpecialCount(s)
  {
    if s != [] {
      EscapeEachLength(s[1..]);
    }
  }

  lemma {:induction false} EscapeEachConcat(a: string, b: string)
    ensures EscapeEach(a + b) == EscapeEach(a) + EscapeEach(b)
  {
    if a != [] {
      assert (a + b)[1..] == a[1..] + b;
      EscapeEachConcat(a[1..], b);
    } else {
      assert a + b == b;
    }
  }

  lemma {:induction false} EscapeEachPlain(s: string)
    requires forall i :: 0 <= i < |s| ==> !IsSpecial(s[i])
    ensures EscapeEach(s) == s
  {
    if s != [] {
      EscapeEachPlain(s[1..]);
    }
  }

  /** The escaped text is as long as the input plus one backslash per special character. */
  lemma EscapeLength(s: string)
    ensures |Escape(s)| == |s| + SpecialCount(s)
  {
    EscapeIsPerCharacter(s);
    EscapeEachLength(s);
  }

  /** Escaping distributes over concatenation. */
  lemma EscapeConcat(a: string, b: string)
    ensures Escape(a + b) == Escape(a) + Escape(b)
  {
    EscapeIsPerCharacter(a + b);
    EscapeIsPerCharacter(a);
    EscapeIsPerCharacter(b);
    EscapeEachConcat(a, b);
  }

  /** Text without `(`, `)` or `.` is returned unchanged. */
  lemma EscapePlain(s: string)
    requires forall i :: 0 <= i < |s| ==> !IsSpecial(s[i])
    ensures Escape(s) == s
  {
    EscapeIsPerCharacter(s);
    EscapeEachPlain(s);
  }
}
