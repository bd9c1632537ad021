/** Pagination shared by every collection listing: the offset/limit window
    of a query's results, the "next" link that asks for the following
    window, and the order in which the store yields entities. */
module Paging {
  import opened Json

  /** Page size and start used when the query string has no `limit` or `offset`. */
  const DefaultLimit: nat := 5
  const DefaultOffset: nat := 0

  function OrDefault(q: Option<nat>, default: nat): nat {
    if q.Some? then q.value else default
  }

  function Min(a: nat, b: nat): nat {
    if a <= b then a else b
  }

  /** The results a query fetched with `offset` and `limit` yields. */
  function Window<T>(xs: seq<T>, offset: nat, limit: nat): (w: seq<T>)
    ensures |w| == if offset >= |xs| then 0 else Min(limit, |xs| - offset)
    ensures forall i :: 0 <= i < |w| ==> w[i] == xs[offset + i]
  {
    if offset >= |xs| then [] else xs[offset .. offset + Min(limit, |xs| - offset)]
  }

  /** Two adjacent windows together are the window of their combined size:
      following "next" links walks the results without gaps or repeats. */
  lemma WindowsTile<T>(xs: seq<T>, offset: nat, a: nat, b: nat)
    ensures Window(xs, offset, a) + Window(xs, offset + a, b) == Window(xs, offset, a + b)
  {
    var w1, w2, w := Window(xs, offset, a), Window(xs, offset + a, b), Window(xs, offset, a + b);
    assert |w1 + w2| == |w|;
    forall i | 0 <= i < |w| ensures (w1 + w2)[i] == w[i] {
      if i >= |w1| {
        assert (w1 + w2)[i] == w2[i - |w1|];
      }
    }
  }

  /** The results a client collects starting at `offset` and following the
      next link (which asks for offset `offset + limit`, by
      `NextLinkRequestsNextWindow`) for as long as there is one. */
  function Walk<T>(xs: seq<T>, offset: nat, limit: nat): seq<T>
    requires limit > 0
    decreases |xs| - offset
  {
    Window(xs, offset, limit) +
      (if NextLink([], |xs|, offset, limit).Some? then Walk(xs, offset + limit, limit) else [])
  }

  /** Following the next links from any page reaches every later result,
      once each and in order; from the first page, all of them. */
  lemma {:induction false} WalkVisitsAll<T>(xs: seq<T>, offset: nat, limit: nat)
    requires limit > 0 && offset <= |xs|
    ensures Walk(xs, offset, limit) == xs[offset..]
    decreases |xs| - offset
  {
    var w := Window(xs, offset, limit);
    if offset + limit < |xs| {
      WalkVisitsAll(xs, offset + limit, limit);
      assert w == xs[offset .. offset + limit];
      assert xs[offset..] == xs[offset .. offset + limit] + xs[offset + limit ..];
    } else {
      assert w == xs[offset..];
    }
  }

  // ---- decimal rendering of the numbers in a link ----

  predicate IsDigit(c: char) {
    '0' <= c <= '9'
  }

  predicate AllDigits(s: string) {
    forall i :: 0 <= i < |s| ==> IsDigit(s[i])
  }

  function DigitChar(d: nat): (c: char)
    requires d < 10
    ensures IsDigit(c) && c as int - '0' as int == d
  {
    ('0' as int + d) as char
  }

  /** Decimal digits of `n` without leading zeros, as `str` writes an integer. */
  function NatToString(n: nat): (s: string)
    ensures |s| > 0 && AllDigits(s)
  {
    if n < 10 then [DigitChar(n)] else NatToString(n / 10) + [DigitChar(n % 10)]
  }

  function DigitsValue(s: string): nat
    requires AllDigits(s)
  {
    if |s| == 0 then 0 else DigitsValue(s[..|s| - 1]) * 10 + (s[|s| - 1] as int - '0' as int)
  }

  /** Reads a non-empty string of decimal digits. */
  function ParseNat(s: string): Option<nat> {
    if |s| > 0 && AllDigits(s) then Some(DigitsValue(s)) else None
  }

  lemma {:induction false} DigitsOfNat(n: nat)
    ensures DigitsValue(NatToString(n)) == n
  {
    if n >= 10 {
      var t := NatToString(n / 10);
      var s := t + [DigitChar(n % 10)];
      assert s[..|s| - 1] == t;
      DigitsOfNat(n / 10);
    }
  }

  /** Reading back a rendered number gives the number. */
  lemma ParseNatToString(n: nat)
    ensures ParseNat(NatToString(n)) == Some(n)
  {
    DigitsOfNat(n);
  }

  // ---- the next link ----

  const LimitKey: string := "?limit="
  const OffsetKey: string := "&offset="

  /** The "next" link of a listing whose query matched `total` entities:
      present exactly when results remain after the window, and asking for
      the same limit at offset `offset + limit`. */
  function NextLink(base: string, total: nat, offset: nat, limit: nat): Option<string> {
    if offset + limit < total then
      Some(base + LimitKey + NatToString(limit) + OffsetKey + NatToString(offset + limit))
    else
      None
  }

  predicate StartsWith(s: string, prefix: string) {
    |prefix| <= |s| && s[..|prefix|] == prefix
  }

  lemma StartsWithConcat(prefix: string, rest: string)
    ensures StartsWith(prefix + rest, prefix) && (prefix + rest)[|prefix|..] == rest
  {
    assert (prefix + rest)[..|prefix|] == prefix;
  }

  /** Position of the first `c` in `s`, or `|s|` when there is none. */
  function IndexOf(s: string, c: char): (i: nat)
    ensures i <= |s|
    ensures forall j :: 0 <= j < i ==> s[j] != c
    ensures i < |s| ==> s[i] == c
  {
    if |s| == 0 then 0 else if s[0] == c then 0 else 1 + IndexOf(s[1..], c)
  }

  /** Reads a query string of the form `?limit=L&offset=O`. */
  function ParseLimitOffset(q: string): Option<(nat, nat)> {
    if !StartsWith(q, LimitKey) then None
    else
      var rest := q[|LimitKey|..];
      var i := IndexOf(rest, '&');
      var tail := rest[i..];
      if !StartsWith(tail, OffsetKey) then None
      else
        match (ParseNat(rest[..i]), ParseNat(tail[|OffsetKey|..]))
        case (Some(l), Some(o)) => Some((l, o))
        case _ => None
  }

  lemma IndexAfterDigits(a: string, tail: string)
    requires AllDigits(a) && |tail| > 0 && tail[0] == '&'
    ensures IndexOf(a + tail, '&') == |a|
  {
    var s := a + tail;
    assert s[|a|] == '&';
    assert forall j :: 0 <= j < |a| ==> s[j] == a[j] && s[j] != '&';
  }

  lemma ParseQueryOf(a: string, b: string)
    requires |a| > 0 && AllDigits(a) && |b| > 0 && AllDigits(b)
    ensures ParseLimitOffset(LimitKey + a + OffsetKey + b) == Some((DigitsValue(a), DigitsValue(b)))
  {
    var q := LimitKey + a + OffsetKey + b;
    var tail := OffsetKey + b;
    var rest := a + tail;
    assert q == LimitKey + rest;
    StartsWithConcat(LimitKey, rest);
    StartsWithConcat(a, tail);
    IndexAfterDigits(a, tail);
    StartsWithConcat(OffsetKey, b);
    assert ParseNat(a) == Some(DigitsValue(a));
    assert ParseNat(b) == Some(DigitsValue(b));
  }

  /** Requesting the next link asks for the same limit at offset `offset + limit`. */
  lemma NextLinkRequestsNextWindow(base: string, total: nat, offset: nat, limit: nat)
    requires offset + limit < total
    ensures NextLink(base, total, offset, limit).Some?
    ensures var link := NextLink(base, total, offset, limit).value;
      StartsWith(link, base) && ParseLimitOffset(link[|base|..]) == Some((limit, offset + limit))
  {
    var a, b := NatToString(limit), NatToString(offset + limit);
    var q := LimitKey + a + OffsetKey + b;
    var link := NextLink(base, total, offset, limit).value;
    assert link == base + q;
    StartsWithConcat(base, q);
    ParseQueryOf(a, b);
    DigitsOfNat(limit);
    DigitsOfNat(offset + limit);
  }

  /** Five results read two at a time: two full pages, each with a next
      link, then a last page of one result and no link. */
  lemma FiveResultsTwoPerPage<T>(xs: seq<T>, base: string)
    requires |xs| == 5
    ensures Window(xs, 0, 2) == xs[..2] && NextLink(base, 5, 0, 2) == Some(base + "?limit=2&offset=2")
    ensures Window(xs, 2, 2) == xs[2..4] && NextLink(base, 5, 2, 2) == Some(base + "?limit=2&offset=4")
    ensures Window(xs, 4, 2) == xs[4..] && NextLink(base, 5, 4, 2) == None
  {
    assert NatToString(2) == "2" && NatToString(4) == "4";
    assert base + "?limit=" + "2" + "&offset=" + "2" == base + "?limit=2&offset=2";
    assert base + "?limit=" + "2" + "&offset=" + "4" == base + "?limit=2&offset=4";
  }

  /** With `limit=0` and results remaining, the page is empty and the next
      link asks for the very same window again, so following links never
      ends; hence `Walk` asks for a positive limit. */
  lemma ZeroLimitRepeatsRequest<T>(xs: seq<T>, base: string, offset: nat)
    requires offset < |xs|
    ensures Window(xs, offset, 0) == []
    ensures NextLink(base, |xs|, offset, 0).Some?
    ensures var link := NextLink(base, |xs|, offset, 0).value;
      StartsWith(link, base) && ParseLimitOffset(link[|base|..]) == Some((0, offset))
  {
    NextLinkRequestsNextWindow(base, |xs|, offset, 0);
  }

  // ---- the order of query results ----

  lemma NoMembersEmpty(s: set<int>)
    ensures (forall y :: y !in s) ==> |s| == 0
  {
    if forall y :: y !in s {
      assert s == {};
    }
  }

  lemma Pick(s: set<int>) returns (x: int)
    requires |s| > 0
    ensures x in s
  {
    NoMembersEmpty(s);
    x :| x in s;
  }

  lemma {:induction false} MinExists(s: set<int>)
    requires |s| > 0
    ensures exists m :: m in s && forall y :: y in s ==> m <= y
  {
    var x := Pick(s);
    var t := s - {x};
    if |t| == 0 {
      assert t == {};
      forall y | y in s ensures x <= y {
        assert y == x || y in t;
      }
      assert x in s && forall y :: y in s ==> x <= y;
    } else {
      MinExists(t);
      var m :| m in t && forall y :: y in t ==> m <= y;
      var k := if x < m then x else m;
      forall y | y in s ensures k <= y {
        assert y == x || y in t;
      }
      assert k in s && forall y :: y in s ==> k <= y;
    }
  }

  function MinOf(s: set<int>): (m: int)
    requires |s| > 0
    ensures m in s && forall y :: y in s ==> m <= y
  {
    MinExists(s);
    var m :| m in s && forall y :: y in s ==> m <= y;
    m
  }

  /** The ids of `s` in the order a query yields them: ascending. */
  function Ascending(s: set<int>): (r: seq<int>)
    ensures |r| == |s|
    ensures forall x :: x in r <==> x in s
    ensures forall i, j :: 0 <= i < j < |r| ==> r[i] < r[j]
    decreases |s|
  {
    if |s| == 0 then []
    else
      var m := MinOf(s);
      [m] + Ascending(s - {m})
  }
}
