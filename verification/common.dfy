/** Values and sequence helpers shared by every view of the point-of-sale front-end. */
module Common {

  /** A value that may be absent (an optional JSON field, a failed number parse). */
  datatype Option<+T> = None | Some(value: T)

  /** A JSON value that is either null, missing (undefined) or a string, as the
      backend sends timestamps such as `hora_cierre`. */
  datatype JsText = Null | Undefined | Str(text: string)

  /** JavaScript truthiness of such a value: only a non-empty string is truthy. */
  predicate Truthy(v: JsText)
  {
    v.Str? && |v.text| > 0
  }

  /** The text a JavaScript template literal prints for such a value. */
  function Interpolated(v: JsText): (r: string)
    ensures v.Str? ==> r == v.text
    ensures v.Null? ==> r == "null"
    ensures v.Undefined? ==> r == "undefined"
  {
    match v
    case Null => "null"
    case Undefined => "undefined"
    case Str(s) => s
  }

  /** JavaScript `v || fallback` for such a value: its text when truthy, else the fallback. */
  function TextOr(v: JsText, fallback: string): (r: string)
    ensures Truthy(v) ==> r == v.text
    ensures !Truthy(v) ==> r == fallback
  {
    if Truthy(v) then v.text else fallback
  }

  /** JavaScript `detail || fallback` where `detail` is an optional string:
      an absent or empty detail gives the fallback. */
  function OrElse(detail: Option<string>, fallback: string): (r: string)
    ensures r == fallback || (detail.Some? && r == detail.value && r != "")
    ensures detail.Some? && detail.value != "" ==> r == detail.value
  {
    match detail
    case Some(d) => if d != "" then d else fallback
    case None => fallback
  }

  /** The outcome of an HTTP request: the response data, or a failure that may
      carry the backend's `detail` text (`err.response?.data?.detail`). */
  datatype Response<+T> = Ok(data: T) | Err(detail: Option<string>)

  /** Keeps, in order, the elements that satisfy `keep` (JavaScript `Array.filter`). */
  function Filter<T(!new)>(xs: seq<T>, keep: T -> bool): (r: seq<T>)
    ensures |r| <= |xs|
    ensures forall x :: x in r <==> x in xs && keep(x)
    ensures Subsequence(r, xs)
  {
    if xs == [] then []
    else
      var rest := Filter(xs[1..], keep);
      assert xs == [xs[0]] + xs[1..];
      if keep(xs[0]) then
        assert ([xs[0]] + rest)[1..] == rest;
        [xs[0]] + rest
      else
        assert rest != [] ==> rest[0] != xs[0] by {
          if rest != [] { assert rest[0] in rest; }
        }
        rest
  }

  /** Filtering keeps every occurrence of a kept value and none of a dropped one. */
  lemma {:induction false} FilterCount<T(!new)>(xs: seq<T>, keep: T -> bool)
    ensures forall x :: multiset(Filter(xs, keep))[x] == if keep(x) then multiset(xs)[x] else 0
  {
    if xs != [] {
      FilterCount(xs[1..], keep);
      assert xs == [xs[0]] + xs[1..];
    }
  }

  /** `r` can be obtained from `xs` by deleting elements, keeping the order of the rest. */
  ghost predicate Subsequence<T>(r: seq<T>, xs: seq<T>)
    decreases |xs|
  {
    r == [] || (xs != [] && if r[0] == xs[0] then Subsequence(r[1..], xs[1..]) else Subsequence(r, xs[1..]))
  }

  /** Filtering a concatenation filters each part: with `Filter([x])` this fixes
      the order of the result completely. */
  lemma {:induction false} FilterConcat<T(!new)>(a: seq<T>, b: seq<T>, keep: T -> bool)
    ensures Filter(a + b, keep) == Filter(a, keep) + Filter(b, keep)
  {
    if a == [] {
      assert a + b == b;
    } else {
      assert (a + b)[1..] == a[1..] + b;
      FilterConcat(a[1..], b, keep);
    }
  }

  /** Two tests that agree on every element select the same elements. */
  lemma {:induction false} FilterCongruent<T(!new)>(xs: seq<T>, p: T -> bool, q: T -> bool)
    requires forall i :: 0 <= i < |xs| ==> p(xs[i]) == q(xs[i])
    ensures Filter(xs, p) == Filter(xs, q)
  {
    if xs != [] {
      FilterCongruent(xs[1..], p, q);
    }
  }

  /** A test that holds on every element keeps the whole sequence. */
  lemma {:induction false} FilterKeepsAll<T(!new)>(xs: seq<T>, keep: T -> bool)
    requires forall i :: 0 <= i < |xs| ==> keep(xs[i])
    ensures Filter(xs, keep) == xs
  {
    if xs != [] {
      FilterKeepsAll(xs[1..], keep);
    }
  }

  /** A test that fails on exactly one element drops exactly that element. */
  lemma {:induction false} FilterDropsOne<T(!new)>(xs: seq<T>, keep: T -> bool, i: int)
    requires 0 <= i < |xs| && !keep(xs[i])
    requires forall j :: 0 <= j < |xs| && j != i ==> keep(xs[j])
    ensures Filter(xs, keep) == xs[..i] + xs[i + 1..]
  {
    if i == 0 {
      FilterKeepsAll(xs[1..], keep);
    } else {
      FilterDropsOne(xs[1..], keep, i - 1);
      SliceOutCons(xs, i);
    }
  }

  /** Removing position `i > 0` commutes with taking off the head. */
  lemma SliceOutCons<T>(xs: seq<T>, i: int)
    requires 0 < i < |xs|
    ensures xs[..i] + xs[i + 1..] == [xs[0]] + (xs[1..][..i - 1] + xs[1..][i..])
  {
    var t := xs[1..];
    assert xs[..i] == [xs[0]] + t[..i - 1];
    assert xs[i + 1..] == t[i..];
  }

  /** Decimal text of an integer, as JavaScript template strings print it. */
  function IntToString(n: int): (r: string)
    ensures |r| > 0
    ensures n >= 0 ==> forall i :: 0 <= i < |r| ==> '0' <= r[i] <= '9'
    ensures n < 0 ==> r[0] == '-'
  {
    if n < 0 then "-" + NatToString(-n) else NatToString(n)
  }

  function NatToString(n: nat): (r: string)
    ensures |r| > 0
    ensures forall i :: 0 <= i < |r| ==> '0' <= r[i] <= '9'
  {
    var d := ['0' + (n % 10) as char];
    if n < 10 then d else NatToString(n / 10) + d
  }
}
