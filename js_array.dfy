/** The JavaScript array methods the source relies on (`filter`, `some`, `map`,
    `find`), including what happens when their callback throws: the callback runs
    on the elements in order and the first exception escapes. */
module JsArray {
  import opened Wrappers

  /** The elements of `s` satisfying `keep`, in order (a total callback). */
  function Filter<T(==)>(keep: T -> bool, s: seq<T>): (r: seq<T>)
    ensures |r| <= |s|
    ensures forall i | 0 <= i < |r| :: r[i] in s && keep(r[i])
    ensures forall i | 0 <= i < |s| :: keep(s[i]) ==> s[i] in r
    decreases |s|
  {
    if s == [] then []
    else if keep(s[0]) then [s[0]] + Filter(keep, s[1..])
    else Filter(keep, s[1..])
  }

  /** `r` can be obtained from `s` by deleting elements (order is kept). */
  ghost predicate SubsequenceOf<T>(r: seq<T>, s: seq<T>)
    decreases |s|
  {
    if r == [] then true
    else if s == [] then false
    else if r[0] == s[0] then SubsequenceOf(r[1..], s[1..])
    else SubsequenceOf(r, s[1..])
  }

  lemma {:induction false} FilterIsSubsequence<T>(keep: T -> bool, s: seq<T>)
    ensures SubsequenceOf(Filter(keep, s), s)
    decreases |s|
  {
    if s != [] {
      FilterIsSubsequence(keep, s[1..]);
      var rest := Filter(keep, s[1..]);
      if !keep(s[0]) && rest != [] {
        assert keep(rest[0]);
      }
    }
  }

  /** Two callbacks that agree on every element select the same elements. */
  lemma {:induction false} FilterCongruence<T>(p: T -> bool, q: T -> bool, s: seq<T>)
    requires forall i | 0 <= i < |s| :: p(s[i]) == q(s[i])
    ensures Filter(p, s) == Filter(q, s)
    decreases |s|
  {
    if s != [] {
      assert p(s[0]) == q(s[0]);
      FilterCongruence(p, q, s[1..]);
    }
  }

  /** Filtering with a callback that selects nothing gives the empty list. */
  lemma {:induction false} FilterNone<T>(keep: T -> bool, s: seq<T>)
    requires forall i | 0 <= i < |s| :: !keep(s[i])
    ensures Filter(keep, s) == []
    decreases |s|
  {
    if s != [] {
      FilterNone(keep, s[1..]);
    }
  }

  /** `s.filter(callback)` where `callback` may throw. */
  function FilterJs<T(==)>(callback: T -> Result<bool>, s: seq<T>): (r: Result<seq<T>>)
    ensures r.Ok? <==> forall i | 0 <= i < |s| :: callback(s[i]).Ok?
    ensures r.Ok? ==> r.value == Filter(x => callback(x) == Ok(true), s)
    ensures r.Err? ==> exists k | 0 <= k < |s| ::
      callback(s[k]) == Err(r.error) && forall j | 0 <= j < k :: callback(s[j]).Ok?
    decreases |s|
  {
    if s == [] then Ok([])
    else
      var keep :- callback(s[0]);
      var rest :- FilterJs(callback, s[1..]);
      Ok(if keep then [s[0]] + rest else rest)
  }

  /** `s.some(callback)` where `callback` may throw: it stops at the first `true`. */
  function SomeJs<T>(callback: T -> Result<bool>, s: seq<T>): (r: Result<bool>)
    ensures r == Ok(true) <==> exists k | 0 <= k < |s| ::
      callback(s[k]) == Ok(true) && forall j | 0 <= j < k :: callback(s[j]) == Ok(false)
    ensures r == Ok(false) <==> forall j | 0 <= j < |s| :: callback(s[j]) == Ok(false)
    ensures r.Err? ==> exists k | 0 <= k < |s| ::
      callback(s[k]) == Err(r.error) && forall j | 0 <= j < k :: callback(s[j]) == Ok(false)
    decreases |s|
  {
    if s == [] then Ok(false)
    else
      var hit :- callback(s[0]);
      if hit then Ok(true) else SomeJs(callback, s[1..])
  }

  /** Scanning `s` in order reaches an element on which the callback fails
      before it reaches one on which it answers `true`. */
  ghost predicate FailsBeforeHit<T>(fails: T -> bool, hit: T -> bool, s: seq<T>)
    decreases |s|
  {
    s != [] && (fails(s[0]) || (!hit(s[0]) && FailsBeforeHit(fails, hit, s[1..])))
  }

  lemma {:induction false} NothingFailsBeforeHit<T>(fails: T -> bool, hit: T -> bool, s: seq<T>)
    requires forall i | 0 <= i < |s| :: !fails(s[i])
    ensures !FailsBeforeHit(fails, hit, s)
    decreases |s|
  {
    if s != [] {
      NothingFailsBeforeHit(fails, hit, s[1..]);
    }
  }

  /** `some` with a callback that fails exactly where `fails` holds and answers
      `true` exactly where `hit` holds: it throws iff a failure comes before the
      first hit, and otherwise answers whether some element is a hit. */
  lemma {:induction false} SomeJsAgrees<T>(callback: T -> Result<bool>, fails: T -> bool, hit: T -> bool, s: seq<T>)
    requires forall i | 0 <= i < |s| :: callback(s[i]).Err? == fails(s[i])
    requires forall i | 0 <= i < |s| :: (callback(s[i]) == Ok(true)) == hit(s[i])
    ensures SomeJs(callback, s).Err? <==> FailsBeforeHit(fails, hit, s)
    ensures SomeJs(callback, s).Ok? ==> (SomeJs(callback, s).value <==> exists i | 0 <= i < |s| :: hit(s[i]))
    decreases |s|
  {
    if s != [] {
      var rest := s[1..];
      if callback(s[0]).Ok? && callback(s[0]) != Ok(true) {
        assert SomeJs(callback, s) == SomeJs(callback, rest);
        assert forall i | 0 <= i < |rest| :: rest[i] == s[i + 1];
        SomeJsAgrees(callback, fails, hit, rest);
        if exists i | 0 <= i < |s| :: hit(s[i]) {
          var i :| 0 <= i < |s| && hit(s[i]);
          assert hit(rest[i - 1]);
        }
      }
    }
  }

  /** Two callbacks that give the same results on every element make `filter`
      give the same result, including the same exception. */
  lemma {:induction false} FilterJsCongruence<T>(c1: T -> Result<bool>, c2: T -> Result<bool>, s: seq<T>)
    requires forall i | 0 <= i < |s| :: c1(s[i]) == c2(s[i])
    ensures FilterJs(c1, s) == FilterJs(c2, s)
    decreases |s|
  {
    if s != [] {
      assert c1(s[0]) == c2(s[0]);
      FilterJsCongruence(c1, c2, s[1..]);
    }
  }

  /** Two callbacks that give the same results on every element make `some`
      give the same result. */
  lemma {:induction false} SomeJsCongruence<T>(c1: T -> Result<bool>, c2: T -> Result<bool>, s: seq<T>)
    requires forall i | 0 <= i < |s| :: c1(s[i]) == c2(s[i])
    ensures SomeJs(c1, s) == SomeJs(c2, s)
    decreases |s|
  {
    if s != [] {
      assert c1(s[0]) == c2(s[0]);
      SomeJsCongruence(c1, c2, s[1..]);
    }
  }

  /** `filter` with a callback that, wherever it does not throw, answers `keep`
      selects what `Filter(keep, _)` selects. */
  lemma FilterJsAgrees<T>(callback: T -> Result<bool>, keep: T -> bool, s: seq<T>)
    requires forall i | 0 <= i < |s| :: callback(s[i]).Ok? ==> callback(s[i]).value == keep(s[i])
    ensures FilterJs(callback, s).Ok? ==> FilterJs(callback, s).value == Filter(keep, s)
  {
    if FilterJs(callback, s).Ok? {
      FilterCongruence(x => callback(x) == Ok(true), keep, s);
    }
  }

  /** `s.map(f)` where `f` may throw. */
  function MapJs<T, U>(f: T -> Result<U>, s: seq<T>): (r: Result<seq<U>>)
    ensures r.Ok? <==> forall i | 0 <= i < |s| :: f(s[i]).Ok?
    ensures r.Ok? ==> |r.value| == |s| && forall i | 0 <= i < |s| :: r.value[i] == f(s[i]).value
    decreases |s|
  {
    if s == [] then Ok([])
    else
      var head :- f(s[0]);
      var rest :- MapJs(f, s[1..]);
      Ok([head] + rest)
  }

  /** `s.find(callback)` where `callback` may throw: it stops at the first `true`. */
  function FindJs<T>(callback: T -> Result<bool>, s: seq<T>): (r: Result<Option<T>>)
    ensures r.Ok? && r.value.Some? <==> exists k | 0 <= k < |s| ::
      callback(s[k]) == Ok(true) && forall j | 0 <= j < k :: callback(s[j]) == Ok(false)
    ensures r.Ok? && r.value.Some? ==> exists k | 0 <= k < |s| ::
      s[k] == r.value.value && callback(s[k]) == Ok(true) && forall j | 0 <= j < k :: callback(s[j]) == Ok(false)
    ensures r == Ok(None) <==> forall j | 0 <= j < |s| :: callback(s[j]) == Ok(false)
    ensures r.Err? ==> exists k | 0 <= k < |s| ::
      callback(s[k]) == Err(r.error) && forall j | 0 <= j < k :: callback(s[j]) == Ok(false)
    decreases |s|
  {
    if s == [] then Ok(None)
    else
      var hit :- callback(s[0]);
      if hit then Ok(Some(s[0]))
      else
        assert forall k | 0 <= k < |s| - 1 :: s[1..][k] == s[k + 1];
        FindJs(callback, s[1..])
  }

  /** `s.find(p)`: the first element satisfying `p`, if any. */
  function Find<T>(p: T -> bool, s: seq<T>): (r: Option<T>)
    ensures r.None? <==> forall i | 0 <= i < |s| :: !p(s[i])
    ensures r.Some? ==> exists k | 0 <= k < |s| ::
      s[k] == r.value && p(s[k]) && forall j | 0 <= j < k :: !p(s[j])
    decreases |s|
  {
    if s == [] then None
    else if p(s[0]) then Some(s[0])
    else Find(p, s[1..])
  }
}
