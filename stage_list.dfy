/**
 * The list operation behind a stage move: `content.filter(item => item !== data)`
 * keeps every element that differs from `data`, in order. `Without` models it;
 * the lemmas below pin it down (it is the one order-preserving subsequence that
 * drops exactly the occurrences of `data`) and state how it behaves on absent
 * labels and on concatenations.
 */
module StageList {

  /** The elements of `s` that are not equal to `x`, in their original order. */
  function Without(s: seq<string>, x: string): (r: seq<string>)
    ensures multiset(r) == multiset(s)[x := 0]
    ensures |r| == |s| - multiset(s)[x]
    ensures x !in r
  {
    if s == [] then []
    else
      assert s == [s[0]] + s[1..];
      if s[0] == x then Without(s[1..], x)
      else [s[0]] + Without(s[1..], x)
  }

  /** `r` is obtained from `s` by deleting some elements and keeping the rest in order. */
  predicate SubSeq(r: seq<string>, s: seq<string>)
  {
    if r == [] then true
    else if s == [] then false
    else (r[0] == s[0] && SubSeq(r[1..], s[1..])) || SubSeq(r, s[1..])
  }

  /** A subsequence never holds more copies of anything than the sequence it came from. */
  lemma {:induction false} SubSeqMultiset(r: seq<string>, s: seq<string>)
    requires SubSeq(r, s)
    ensures multiset(r) <= multiset(s)
  {
    if r == [] {
    } else {
      assert s == [s[0]] + s[1..];
      if r[0] == s[0] && SubSeq(r[1..], s[1..]) {
        SubSeqMultiset(r[1..], s[1..]);
        assert r == [r[0]] + r[1..];
      } else {
        SubSeqMultiset(r, s[1..]);
      }
    }
  }

  /** The filter keeps the surviving elements in their relative order. */
  lemma {:induction false} WithoutKeepsOrder(s: seq<string>, x: string)
    ensures SubSeq(Without(s, x), s)
  {
    if s != [] {
      WithoutKeepsOrder(s[1..], x);
    }
  }

  /**
   * The filter is characterised by what it keeps: any order-preserving
   * subsequence of `s` that holds every non-`x` element as often as `s` does,
   * and no `x`, is `Without(s, x)`.
   */
  lemma {:induction false} WithoutUnique(r: seq<string>, s: seq<string>, x: string)
    requires SubSeq(r, s)
    requires multiset(r) == multiset(s)[x := 0]
    ensures r == Without(s, x)
  {
    if s == [] {
    } else {
      assert s == [s[0]] + s[1..];
      if s[0] == x {
        assert multiset(s[1..])[x := 0] == multiset(s)[x := 0];
        if r != [] {
          assert r[0] in multiset(r);
          assert r[0] != x;
        }
        WithoutUnique(r, s[1..], x);
      } else {
        assert multiset(r)[s[0]] == multiset(s)[s[0]];
        if r != [] && r[0] == s[0] && SubSeq(r[1..], s[1..]) {
          assert r == [r[0]] + r[1..];
          forall y ensures multiset(r[1..])[y] == multiset(s[1..])[x := 0][y] {
            assert multiset(r)[y] == multiset(r[1..])[y] + (if y == s[0] then 1 else 0);
          }
          assert multiset(r[1..]) == multiset(s[1..])[x := 0];
          WithoutUnique(r[1..], s[1..], x);
        } else {
          assert SubSeq(r, s[1..]);
          SubSeqMultiset(r, s[1..]);
          assert false;
        }
      }
    }
  }

  /** Filtering out a label that is not there gives back the list unchanged. */
  lemma {:induction false} WithoutAbsent(s: seq<string>, x: string)
    requires x !in s
    ensures Without(s, x) == s
  {
    if s != [] {
      WithoutAbsent(s[1..], x);
      assert s == [s[0]] + s[1..];
    }
  }

  /** Filtering a second time with the same label changes nothing. */
  lemma WithoutIdempotent(s: seq<string>, x: string)
    ensures Without(Without(s, x), x) == Without(s, x)
  {
    WithoutAbsent(Without(s, x), x);
  }

  /** The filter distributes over concatenation. */
  lemma {:induction false} WithoutAppend(s: seq<string>, t: seq<string>, x: string)
    ensures Without(s + t, x) == Without(s, x) + Without(t, x)
  {
    if s == [] {
      assert s + t == t;
    } else {
      assert (s + t)[0] == s[0];
      assert (s + t)[1..] == s[1..] + t;
      WithoutAppend(s[1..], t, x);
    }
  }

  /** Filtering out a label that occurs once removes just that element. */
  lemma WithoutSingle(front: seq<string>, x: string, back: seq<string>)
    requires x !in front && x !in back
    ensures Without(front + [x] + back, x) == front + back
  {
    var head := front + [x];
    WithoutAppend(head, back, x);
    WithoutAppend(front, [x], x);
    WithoutAbsent(front, x);
    WithoutAbsent(back, x);
    assert [x][1..] == [];
    assert Without([x], x) == Without([], x) == [];
    assert Without(head, x) == front;
  }
}
