/** The lotto draw, `generateLottoNumbers` (script.js:40-46): six distinct
    balls out of 1..45, in ascending order. */
module Lotto {
  import opened Random

  const BallCount := 45
  const PickCount := 6

  predicate InRange(s: seq<int>) {
    forall i :: 0 <= i < |s| ==> 1 <= s[i] <= BallCount
  }

  predicate Distinct(s: seq<int>) {
    forall i, j :: 0 <= i < j < |s| ==> s[i] != s[j]
  }

  predicate Ascending(s: seq<int>) {
    forall i, j :: 0 <= i < j < |s| ==> s[i] <= s[j]
  }

  predicate StrictlyAscending(s: seq<int>) {
    forall i, j :: 0 <= i < j < |s| ==> s[i] < s[j]
  }

  /** A valid lotto set: six balls in range, strictly ascending (hence distinct). */
  predicate IsLottoSet(s: seq<int>) {
    |s| == PickCount && InRange(s) && StrictlyAscending(s)
  }

  /** The balls a stream of random values produces, one per value. */
  function Balls(rs: seq<real>): (bs: seq<int>)
    requires AllUnit(rs)
    ensures |bs| == |rs| && InRange(bs)
  {
    seq(|rs|, i requires 0 <= i < |rs| => LottoBall(rs[i]))
  }

  /** The distinct values of `s` in order of first occurrence: what a JavaScript
      `Set` holds after adding the elements of `s` one by one, in the order
      `Array.from` lists them. */
  function Dedup(s: seq<int>): (d: seq<int>)
    ensures |d| <= |s|
  {
    if s == [] then []
    else
      var d := Dedup(s[..|s| - 1]);
      if s[|s| - 1] in d then d else d + [s[|s| - 1]]
  }

  /** The set holds each value added and nothing else. */
  lemma {:induction false} DedupMembers(s: seq<int>)
    ensures forall x :: x in Dedup(s) <==> x in s
  {
    if s != [] {
      var init := s[..|s| - 1];
      DedupMembers(init);
      assert s == init + [s[|s| - 1]];
    }
  }

  /** The set holds each value once, and only balls when only balls were added. */
  lemma {:induction false} DedupElements(s: seq<int>)
    ensures Distinct(Dedup(s))
    ensures InRange(s) ==> InRange(Dedup(s))
  {
    if s != [] {
      var init := s[..|s| - 1];
      DedupElements(init);
      DedupMembers(init);
      DedupMembers(s);
    }
  }

  /** The distinct values of a prefix are a prefix of the distinct values. */
  lemma {:induction false} DedupPrefix(s: seq<int>, n: nat)
    requires n <= |s|
    ensures Dedup(s[..n]) <= Dedup(s)
  {
    if n < |s| {
      var init := s[..|s| - 1];
      assert init[..n] == s[..n];
      DedupPrefix(init, n);
    } else {
      assert s[..n] == s;
    }
  }

  /** A stream the draw can finish on: every value a random in [0, 1), and at
      least six distinct balls among them. */
  predicate CanDraw(rs: seq<real>) {
    AllUnit(rs) && |Dedup(Balls(rs))| >= PickCount
  }

  /** The first six distinct balls of the stream, in drawing order. */
  function FirstSix(rs: seq<real>): (f: seq<int>)
    requires CanDraw(rs)
    ensures |f| == PickCount && Distinct(f) && InRange(f)
  {
    DedupElements(Balls(rs));
    Dedup(Balls(rs))[..PickCount]
  }

  /** Inserting into an ascending sequence; the comparator `(a, b) => a - b`. */
  function Insert(x: int, s: seq<int>): (r: seq<int>)
    ensures multiset(r) == multiset(s) + multiset{x}
    ensures forall y :: y in r <==> y == x || y in s
  {
    if s == [] || x <= s[0] then [x] + s
    else
      assert s == [s[0]] + s[1..];
      [s[0]] + Insert(x, s[1..])
  }

  lemma {:induction false} InsertAscending(x: int, s: seq<int>)
    requires Ascending(s)
    ensures Ascending(Insert(x, s))
  {
    var r := Insert(x, s);
    if s != [] && x > s[0] {
      var rest := Insert(x, s[1..]);
      InsertAscending(x, s[1..]);
      assert r == [s[0]] + rest;
      forall i, j | 0 <= i < j < |r| ensures r[i] <= r[j] {
        if i == 0 {
          assert r[j] == rest[j - 1] && rest[j - 1] in rest;
        } else {
          assert r[i] == rest[i - 1] && r[j] == rest[j - 1];
        }
      }
    } else {
      forall i, j | 0 <= i < j < |r| ensures r[i] <= r[j] {
        if i > 0 {
          assert r[i] == s[i - 1] && r[j] == s[j - 1];
        } else {
          assert r[j] == s[j - 1];
        }
      }
    }
  }

  lemma {:induction false} InsertStrict(x: int, s: seq<int>)
    requires StrictlyAscending(s) && x !in s
    ensures StrictlyAscending(Insert(x, s))
  {
    var r := Insert(x, s);
    if s != [] && x > s[0] {
      var rest := Insert(x, s[1..]);
      InsertStrict(x, s[1..]);
      assert r == [s[0]] + rest;
      forall i, j | 0 <= i < j < |r| ensures r[i] < r[j] {
        if i == 0 {
          assert r[j] == rest[j - 1] && rest[j - 1] in rest;
        } else {
          assert r[i] == rest[i - 1] && r[j] == rest[j - 1];
        }
      }
    } else {
      forall i, j | 0 <= i < j < |r| ensures r[i] < r[j] {
        if i > 0 {
          assert r[i] == s[i - 1] && r[j] == s[j - 1];
        } else {
          assert r[j] == s[j - 1] && s[0] <= s[j - 1];
        }
      }
    }
  }

  /** `Array.prototype.sort` with the numeric comparator `(a, b) => a - b`. */
  function Sort(s: seq<int>): (r: seq<int>)
    ensures multiset(r) == multiset(s)
    ensures forall x :: x in r <==> x in s
    ensures Ascending(r)
    ensures Distinct(s) ==> StrictlyAscending(r)
  {
    if s == [] then []
    else
      assert s == [s[0]] + s[1..];
      var rest := Sort(s[1..]);
      InsertAscending(s[0], rest);
      assert Distinct(s) ==> StrictlyAscending(Insert(s[0], rest)) by {
        if Distinct(s) {
          assert Distinct(s[1..]) && s[0] !in s[1..];
          InsertStrict(s[0], rest);
        }
      }
      Insert(s[0], rest)
  }

  /** What one call of `generateLottoNumbers` returns on the stream `rs`:
      a valid lotto set holding exactly the first six distinct balls drawn. */
  function LottoOf(rs: seq<real>): (r: seq<int>)
    requires CanDraw(rs)
    ensures IsLottoSet(r)
    ensures forall x :: x in r <==> x in FirstSix(rs)
  {
    var f := FirstSix(rs);
    var r := Sort(f);
    assert |r| == |multiset(r)| == |multiset(f)| == |f|;
    assert forall i :: 0 <= i < |r| ==> r[i] in f;
    r
  }

  /** Adding the next ball to the set. */
  lemma DedupStep(bs: seq<int>, i: nat)
    requires i < |bs|
    ensures Dedup(bs[..i + 1]) == if bs[i] in Dedup(bs[..i]) then Dedup(bs[..i]) else Dedup(bs[..i]) + [bs[i]]
  {
    assert bs[..i + 1][..i] == bs[..i];
  }

  /** When the set first reaches six balls, it holds the first six distinct
      balls of the whole stream. */
  lemma DedupStop(bs: seq<int>, i: nat)
    requires i <= |bs| && |Dedup(bs[..i])| == PickCount
    ensures PickCount <= i
    ensures |Dedup(bs)| >= PickCount && Dedup(bs[..i]) == Dedup(bs)[..PickCount]
  {
    DedupPrefix(bs, i);
  }

  /** Drawing the balls `bs[..used]` stops at the first moment the set holds six:
      five distinct balls before the last one, and the last one new. */
  predicate StopsAt(bs: seq<int>, used: nat)
    requires 0 < used <= |bs|
  {
    |Dedup(bs[..used - 1])| == PickCount - 1 && bs[used - 1] !in bs[..used - 1]
  }

  /** The ball that brings the set to six is new, and five came before it. */
  lemma DedupLast(bs: seq<int>, i: nat)
    requires 0 < i <= |bs|
    requires |Dedup(bs[..i])| == PickCount && |Dedup(bs[..i - 1])| < PickCount
    ensures StopsAt(bs, i)
  {
    DedupStep(bs, i - 1);
    var last := bs[i - 1];
    assert last !in Dedup(bs[..i - 1]);
    DedupMembers(bs[..i - 1]);
    assert last !in bs[..i - 1];
  }

  /** The draw on `rs` that stops after `i` values returns `LottoOf(rs)`. */
  lemma DrawEnd(rs: seq<real>, i: nat)
    requires CanDraw(rs) && 0 < i <= |rs|
    requires |Dedup(Balls(rs)[..i])| == PickCount && |Dedup(Balls(rs)[..i - 1])| < PickCount
    ensures PickCount <= i
    ensures Sort(Dedup(Balls(rs)[..i])) == LottoOf(rs)
    ensures forall x :: x in LottoOf(rs) <==> x in Balls(rs)[..i]
    ensures StopsAt(Balls(rs), i)
  {
    var bs := Balls(rs);
    DedupStop(bs, i);
    DedupLast(bs, i);
    DedupMembers(bs[..i]);
  }

  /** The `while` loop of `generateLottoNumbers` (script.js:41-44). The `Set`
      is kept as the list of its elements in insertion order; each round
      consumes the next random value, and the loop ends as soon as the set
      holds six balls. `used` is the number of random values consumed. */
  method DrawBalls(rs: seq<real>) returns (drawn: seq<int>, used: nat)
    requires CanDraw(rs)
    ensures 0 < used <= |rs|
    ensures drawn == Dedup(Balls(rs)[..used]) && |drawn| == PickCount
    ensures |Dedup(Balls(rs)[..used - 1])| < PickCount
  {
    ghost var balls := Balls(rs);
    assert balls[..|rs|] == balls;
    drawn := [];
    used := 0;
    while |drawn| < PickCount
      invariant 0 <= used <= |rs|
      invariant drawn == Dedup(balls[..used])
      invariant |drawn| <= PickCount
      invariant used == 0 || |Dedup(balls[..used - 1])| < PickCount
      decreases |rs| - used
    {
      var ball := LottoBall(rs[used]);
      DedupStep(balls, used);
      if ball !in drawn {
        drawn := drawn + [ball];
      }
      used := used + 1;
    }
  }

  /** `generateLottoNumbers` (script.js:40-46): draw until the set holds six
      balls, then `Array.from(numbers).sort((a, b) => a - b)`. The result is the
      lotto set of the stream, made of the balls of the values consumed; the
      draw stops right after the sixth distinct ball. */
  method GenerateLottoNumbers(rs: seq<real>) returns (numbers: seq<int>, used: nat)
    requires CanDraw(rs)
    ensures numbers == LottoOf(rs)
    ensures PickCount <= used <= |rs|
    ensures forall x :: x in numbers <==> x in Balls(rs)[..used]
    ensures StopsAt(Balls(rs), used)
  {
    var drawn;
    drawn, used := DrawBalls(rs);
    DrawEnd(rs, used);
    numbers := Sort(drawn);
  }
}
