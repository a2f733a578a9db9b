/** Shared vocabulary: optional values, results carrying the errors the
    service raises, and order-preserving filters over sequences. */
module Common {

  /** Seconds since the epoch. Every timestamp of the model is one. */
  type Timestamp = int

  const SecondsPerHour: int := 3600

  datatype Option<+T> = None | Some(value: T) {
    function GetOr(default: T): T {
      match this
      case Some(v) => v
      case None => default
    }
  }

  /** The exceptions the service can raise. */
  datatype Error =
    | HttpException(statusCode: int)   // a FastAPI HTTPException with this status
    | TransportError                   // the HTTP client itself raised (connection, timeout)
    | ValidationError                  // a pydantic field bound was violated
    | MultipleResultsFound             // scalar_one_or_none met more than one row

  datatype Result<+T> = Ok(value: T) | Err(error: Error)

  /** Continue with `f` after a success; an error propagates unchanged. */
  function AndThen<A, B>(r: Result<A>, f: A -> Result<B>): Result<B> {
    match r
    case Ok(a) => f(a)
    case Err(e) => Err(e)
  }

  /** Transform a success with `f`; an error propagates unchanged. */
  function MapOk<A, B>(r: Result<A>, f: A -> B): Result<B> {
    match r
    case Ok(a) => Ok(f(a))
    case Err(e) => Err(e)
  }

  /** The elements of `s` that satisfy `p`, in their original order: the
      model of a Python list comprehension `[x for x in s if p(x)]`. */
  function Filter<T>(s: seq<T>, p: T -> bool): (r: seq<T>)
    ensures |r| <= |s|
    ensures forall i :: 0 <= i < |r| ==> r[i] in s && p(r[i])
    ensures forall i :: 0 <= i < |s| && p(s[i]) ==> s[i] in r
    decreases |s|
  {
    if s == [] then [] else (if p(s[0]) then [s[0]] else []) + Filter(s[1..], p)
  }

  /** `sub` can be obtained from `s` by deleting elements. */
  predicate IsSubsequence<T(==)>(sub: seq<T>, s: seq<T>)
    decreases |s|
  {
    if sub == [] then true
    else if s == [] then false
    else if sub[0] == s[0] then IsSubsequence(sub[1..], s[1..])
    else IsSubsequence(sub, s[1..])
  }

  lemma {:induction false} FilterAppend<T>(a: seq<T>, b: seq<T>, p: T -> bool)
    ensures Filter(a + b, p) == Filter(a, p) + Filter(b, p)
    decreases |a|
  {
    if a == [] {
      assert a + b == b;
    } else {
      assert (a + b)[0] == a[0];
      assert (a + b)[1..] == a[1..] + b;
      FilterAppend(a[1..], b, p);
    }
  }

  /** Filtering keeps the relative order of the kept elements. */
  lemma {:induction false} FilterIsSubsequence<T>(s: seq<T>, p: T -> bool)
    ensures IsSubsequence(Filter(s, p), s)
    decreases |s|
  {
    if s != [] {
      FilterIsSubsequence(s[1..], p);
      if p(s[0]) {
        assert Filter(s, p) == [s[0]] + Filter(s[1..], p);
        assert Filter(s, p)[1..] == Filter(s[1..], p);
      } else {
        assert Filter(s, p) == Filter(s[1..], p);
        SubsequenceOfTail(Filter(s[1..], p), s);
      }
    }
  }

  lemma {:induction false} SubsequenceOfTail<T>(sub: seq<T>, s: seq<T>)
    requires s != []
    requires IsSubsequence(sub, s[1..])
    ensures IsSubsequence(sub, s)
    decreases |s|, 0
  {
    if sub != [] && sub[0] == s[0] {
      SubsequenceDropHead(sub, s[1..]);
    }
  }

  lemma {:induction false} SubsequenceDropHead<T>(sub: seq<T>, s: seq<T>)
    requires sub != []
    requires IsSubsequence(sub, s)
    ensures IsSubsequence(sub[1..], s)
    decreases |s|, 1
  {
    if s != [] && sub[0] != s[0] {
      SubsequenceDropHead(sub, s[1..]);
      SubsequenceOfTail(sub[1..], s);
    } else if s != [] {
      SubsequenceOfTail(sub[1..], s);
    }
  }

  /** Filtering keeps every occurrence, duplicates included, of an element
      that satisfies `p`, and drops every occurrence of one that does not. */
  lemma {:induction false} FilterMultiplicity<T>(s: seq<T>, p: T -> bool, x: T)
    ensures multiset(Filter(s, p))[x] == if p(x) then multiset(s)[x] else 0
    decreases |s|
  {
    if s != [] {
      FilterMultiplicity(s[1..], p, x);
      assert s == [s[0]] + s[1..];
      assert multiset(s) == multiset([s[0]]) + multiset(s[1..]);
    }
  }

  /** `FilterMultiplicity` for every element at once. */
  lemma FilterMultiplicities<T(!new)>(s: seq<T>, p: T -> bool)
    ensures forall x :: multiset(Filter(s, p))[x] == if p(x) then multiset(s)[x] else 0
  {
    forall x ensures multiset(Filter(s, p))[x] == if p(x) then multiset(s)[x] else 0 {
      FilterMultiplicity(s, p, x);
    }
  }

  /** A filter whose predicate holds nowhere keeps nothing. */
  lemma {:induction false} FilterNone<T>(s: seq<T>, p: T -> bool)
    requires forall i :: 0 <= i < |s| ==> !p(s[i])
    ensures Filter(s, p) == []
    decreases |s|
  {
    if s != [] {
      FilterNone(s[1..], p);
    }
  }

  /** The number of elements of `s` that satisfy `p`. */
  function CountWhere<T>(s: seq<T>, p: T -> bool): nat
    decreases |s|
  {
    if s == [] then 0 else (if p(s[0]) then 1 else 0) + CountWhere(s[1..], p)
  }

  lemma {:induction false} FilterLength<T>(s: seq<T>, p: T -> bool)
    ensures |Filter(s, p)| == CountWhere(s, p)
    decreases |s|
  {
    if s != [] {
      FilterLength(s[1..], p);
    }
  }

  /** The values of the successful results, in order: the model of
      `[r for r in results if isinstance(r, T)]` over results gathered with
      `return_exceptions=True`. */
  function Successes<T>(rs: seq<Result<T>>): (r: seq<T>)
    ensures |r| <= |rs|
    ensures forall i :: 0 <= i < |r| ==> Ok(r[i]) in rs
    ensures forall i :: 0 <= i < |rs| && rs[i].Ok? ==> rs[i].value in r
    decreases |rs|
  {
    if rs == [] then []
    else (if rs[0].Ok? then [rs[0].value] else []) + Successes(rs[1..])
  }

  lemma {:induction false} SuccessesAppend<T>(a: seq<Result<T>>, b: seq<Result<T>>)
    ensures Successes(a + b) == Successes(a) + Successes(b)
    decreases |a|
  {
    if a == [] {
      assert a + b == b;
    } else {
      assert (a + b)[1..] == a[1..] + b;
      SuccessesAppend(a[1..], b);
    }
  }

  /** Dropping the failures loses exactly the failures: the number of
      values returned is the number of elements minus the number of errors. */
  lemma {:induction false} SuccessesLength<T>(rs: seq<Result<T>>)
    ensures |Successes(rs)| == |rs| - CountWhere(rs, (r: Result<T>) => r.Err?)
    decreases |rs|
  {
    if rs != [] {
      SuccessesLength(rs[1..]);
    }
  }
}
