/**
 * Id selection over an AUTOINCREMENT key range, the shape of the handlers'
 * `WHERE ... ORDER BY id [ASC|DESC] LIMIT n` queries.
 */
module Tables {

  /** The ids in [lo, hi) that satisfy `p`, highest first. */
  function SelectDesc(lo: int, hi: int, p: int -> bool): (r: seq<int>)
    ensures forall k :: 0 <= k < |r| ==> lo <= r[k] < hi && p(r[k])
    ensures forall i, j :: 0 <= i < j < |r| ==> r[i] > r[j]
    ensures forall x :: lo <= x < hi && p(x) ==> x in r
    decreases hi - lo
  {
    if hi <= lo then []
    else if p(hi - 1) then [hi - 1] + SelectDesc(lo, hi - 1, p)
    else SelectDesc(lo, hi - 1, p)
  }

  /** The ids in [lo, hi) that satisfy `p`, lowest first. */
  function SelectAsc(lo: int, hi: int, p: int -> bool): (r: seq<int>)
    ensures forall k :: 0 <= k < |r| ==> lo <= r[k] < hi && p(r[k])
    ensures forall i, j :: 0 <= i < j < |r| ==> r[i] < r[j]
    ensures forall x :: lo <= x < hi && p(x) ==> x in r
    decreases hi - lo
  {
    if hi <= lo then []
    else if p(lo) then [lo] + SelectAsc(lo + 1, hi, p)
    else SelectAsc(lo + 1, hi, p)
  }

  /** `LIMIT n`: the first n entries, or all of them when there are fewer. */
  function Take(s: seq<int>, n: int): (r: seq<int>)
    ensures |r| == if n < 0 then 0 else if n < |s| then n else |s|
    ensures forall k :: 0 <= k < |r| ==> r[k] == s[k]
  {
    if n <= 0 then [] else if n < |s| then s[..n] else s
  }

  /** An entry of a descending run that `LIMIT n` drops means the page is full and the entry is older than all of it. */
  lemma TakeDropsDesc(s: seq<int>, n: nat, x: int)
    requires forall i, j :: 0 <= i < j < |s| ==> s[i] > s[j]
    requires x in s && x !in Take(s, n)
    ensures |Take(s, n)| == n
    ensures n > 0 ==> x < Take(s, n)[n - 1]
  {
    var r := Take(s, n);
    assert forall k :: 0 <= k < |r| ==> s[k] == r[k] != x;
    if n > 0 {
      assert r[n - 1] == s[n - 1];
    }
  }

  /** An entry of an ascending run that `LIMIT n` drops means the page is full and the entry is above all of it. */
  lemma TakeDropsAsc(s: seq<int>, n: nat, x: int)
    requires forall i, j :: 0 <= i < j < |s| ==> s[i] < s[j]
    requires x in s && x !in Take(s, n)
    ensures |Take(s, n)| == n
    ensures n > 0 ==> x > Take(s, n)[n - 1]
  {
    var r := Take(s, n);
    assert forall k :: 0 <= k < |r| ==> s[k] == r[k] != x;
    if n > 0 {
      assert r[n - 1] == s[n - 1];
    }
  }

  /**
   * `WHERE p ORDER BY id DESC LIMIT n` over ids in [lo, hi): at most n
   * matching ids, newest first; a match left out means the page is full
   * and the match is older than every listed id.
   */
  function PageDesc(lo: int, hi: int, p: int -> bool, n: nat): (r: seq<int>)
    ensures |r| <= n
    ensures forall k :: 0 <= k < |r| ==> lo <= r[k] < hi && p(r[k])
    ensures forall i, j :: 0 <= i < j < |r| ==> r[i] > r[j]
    ensures forall x :: lo <= x < hi && p(x) && x !in r ==> |r| == n && (n > 0 ==> x < r[n - 1])
  {
    var all := SelectDesc(lo, hi, p);
    var r := Take(all, n);
    assert forall x :: lo <= x < hi && p(x) && x !in r ==> |r| == n && (n > 0 ==> x < r[n - 1]) by {
      forall x | lo <= x < hi && p(x) && x !in r
        ensures |r| == n && (n > 0 ==> x < r[n - 1])
      {
        TakeDropsDesc(all, n, x);
      }
    }
    r
  }

  /**
   * `WHERE p ORDER BY id ASC LIMIT n` over ids in [lo, hi): at most n
   * matching ids, lowest first; a match left out means the page is full
   * and the match is above every listed id.
   */
  function PageAsc(lo: int, hi: int, p: int -> bool, n: nat): (r: seq<int>)
    ensures |r| <= n
    ensures forall k :: 0 <= k < |r| ==> lo <= r[k] < hi && p(r[k])
    ensures forall i, j :: 0 <= i < j < |r| ==> r[i] < r[j]
    ensures forall x :: lo <= x < hi && p(x) && x !in r ==> |r| == n && (n > 0 ==> x > r[n - 1])
  {
    var all := SelectAsc(lo, hi, p);
    var r := Take(all, n);
    assert forall x :: lo <= x < hi && p(x) && x !in r ==> |r| == n && (n > 0 ==> x > r[n - 1]) by {
      forall x | lo <= x < hi && p(x) && x !in r
        ensures |r| == n && (n > 0 ==> x > r[n - 1])
      {
        TakeDropsAsc(all, n, x);
      }
    }
    r
  }
}
