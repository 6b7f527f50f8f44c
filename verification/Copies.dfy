/** Repeated blocks at the end of a sequence: the definition, and the walk from the end that
    the cycle detector uses to decide it. */
module Copies {

  /** One block, n times over. */
  function Repeat<T>(block: seq<T>, n: nat): seq<T> {
    if n == 0 then [] else Repeat(block, n - 1) + block
  }

  predicate EndsWith<T(==)>(s: seq<T>, t: seq<T>) {
    |t| <= |s| && s[|s| - |t|..] == t
  }

  /** s ends in n copies of some block of length p. */
  ghost predicate EndsInCopies<T(!new)>(s: seq<T>, p: nat, n: nat) {
    exists block: seq<T> :: |block| == p && EndsWith(s, Repeat(block, n))
  }

  /** Taking n blocks off the end of s, each is this one. */
  predicate Walk<T(==)>(s: seq<T>, block: seq<T>, n: nat)
    decreases n
  {
    n == 0 || (EndsWith(s, block) && Walk(s[..|s| - |block|], block, n - 1))
  }

  lemma {:induction false} WalkIsEnding<T>(s: seq<T>, block: seq<T>, n: nat)
    ensures Walk(s, block, n) <==> EndsWith(s, Repeat(block, n))
    decreases n
  {
    if n > 0 {
      var front := Repeat(block, n - 1);
      if EndsWith(s, block) {
        var rest := s[..|s| - |block|];
        WalkIsEnding(rest, block, n - 1);
        assert s == rest + block;
        EndsWithConcat(rest, front, block);
      }
    }
  }

  lemma {:induction false} EndsWithConcat<T>(rest: seq<T>, front: seq<T>, block: seq<T>)
    ensures EndsWith(rest + block, front + block) <==> EndsWith(rest, front)
  {
    var s, t := rest + block, front + block;
    if EndsWith(s, t) {
      assert rest[|rest| - |front|..] == s[|s| - |t|..][..|front|] == t[..|front|] == front;
    }
    if EndsWith(rest, front) {
      assert s[|s| - |t|..] == rest[|rest| - |front|..] + block;
    }
  }

  function Last<T>(s: seq<T>, p: nat): seq<T>
    requires p <= |s|
  {
    s[|s| - p..]
  }

  /** s ends in n copies of its own last p elements. */
  predicate Copied<T(==)>(s: seq<T>, p: nat, n: nat) {
    p <= |s| && Walk(s, Last(s, p), n)
  }

  /** Walking back with the last p elements decides whether s ends in n copies. */
  lemma {:induction false} CopiedIsEnding<T(!new)>(s: seq<T>, p: nat, n: nat)
    requires n >= 1
    ensures EndsInCopies(s, p, n) <==> Copied(s, p, n)
  {
    if Copied(s, p, n) {
      WalkIsEnding(s, Last(s, p), n);
      assert |Last(s, p)| == p;
    }
    if EndsInCopies(s, p, n) {
      var block: seq<T> :| |block| == p && EndsWith(s, Repeat(block, n));
      WalkIsEnding(s, block, n);
      assert block == Last(s, p);
    }
  }

  /** The walk itself: compare earlier blocks with the last one until enough match. */
  method MatchBack<T(==)>(s: seq<T>, p: nat, needed: nat) returns (found: bool)
    requires 1 <= p <= |s| && needed >= 1
    ensures found <==> Copied(s, p, needed)
  {
    var pattern := Last(s, p);
    var matches, end := 1, |s| - p;
    assert Walk(s, pattern, needed) <==> Walk(s[..end], pattern, needed - 1);
    while matches < needed
      invariant 1 <= matches <= needed && 0 <= end <= |s|
      invariant Walk(s, pattern, needed) <==> Walk(s[..end], pattern, needed - matches)
      decreases needed - matches
    {
      if end < p || s[end - p..end] != pattern {
        assert !EndsWith(s[..end], pattern);
        return false;
      }
      assert s[..end][..end - p] == s[..end - p] && s[..end][end - p..] == pattern;
      matches, end := matches + 1, end - p;
    }
    return true;
  }

  lemma OneLess(n: int, p: int)
    ensures (n - 1) * p == n * p - p
  {
  }

  lemma {:induction false} WalkNeedsRoom<T>(s: seq<T>, block: seq<T>, n: nat)
    requires Walk(s, block, n)
    ensures n * |block| <= |s|
    decreases n
  {
    if n > 0 {
      WalkNeedsRoom(s[..|s| - |block|], block, n - 1);
      OneLess(n, |block|);
    }
  }

  /** Zero copies are at the end of everything. */
  lemma NoCopies<T(!new)>(s: seq<T>, p: nat)
    requires s != []
    ensures EndsInCopies(s, p, 0)
  {
    var block := seq(p, i => s[0]);
    assert |block| == p && Repeat(block, 0) == [];
    assert EndsWith(s, Repeat(block, 0));
  }

  /** Copies of a single element. */
  lemma {:induction false} WalkSingle<T>(s: seq<T>, x: T, n: nat)
    ensures Walk(s, [x], n) <==> n <= |s| && forall i :: |s| - n <= i < |s| ==> s[i] == x
    decreases n
  {
    if n > 0 && s != [] {
      var front := s[..|s| - 1];
      WalkSingle(front, x, n - 1);
      assert s[|s| - 1..] == [s[|s| - 1]];
      assert EndsWith(s, [x]) <==> s[|s| - 1] == x;
      assert forall i :: 0 <= i < |front| ==> front[i] == s[i];
    }
  }
}
