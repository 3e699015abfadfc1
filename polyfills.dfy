/** The `Array.prototype` and `Object.keys` polyfills that Highcharts installs on
    old Internet Explorer. Arrays are sequences, callbacks are total functions of
    the element and its index; a callback's return value is `Some(b)` when it is
    the boolean `b` and `None` when it is anything else (typically `undefined`). */
module OldiePolyfills {
  import opened Wrappers

  /** The indices below `k` whose element passes `keep`, in ascending order: the
      positions that `Array.prototype.filter` keeps. */
  function Selected<T>(arr: seq<T>, keep: (T, nat) -> bool, k: nat): (r: seq<nat>)
    requires k <= |arr|
    ensures |r| <= k
    ensures forall j :: 0 <= j < |r| ==> r[j] < k && keep(arr[r[j]], r[j])
    ensures forall j, j' :: 0 <= j < j' < |r| ==> r[j] < r[j']
    ensures forall i :: 0 <= i < k && keep(arr[i], i) ==> i in r
  {
    if k == 0 then []
    else Selected(arr, keep, k - 1) + (if keep(arr[k - 1], k - 1) then [k - 1] else [])
  }

  /** Selecting over a shorter prefix yields a prefix of the selection. */
  lemma {:induction false} SelectedPrefix<T>(arr: seq<T>, keep: (T, nat) -> bool, j: nat, k: nat)
    requires j <= k <= |arr|
    ensures Selected(arr, keep, j) <= Selected(arr, keep, k)
    decreases k - j
  {
    if j < k {
      SelectedPrefix(arr, keep, j, k - 1);
    }
  }

  /** A kept index `j` sits at position "number of kept indices below `j`" of the
      whole selection. */
  lemma SelectedRank<T>(arr: seq<T>, keep: (T, nat) -> bool, j: nat)
    requires j < |arr| && keep(arr[j], j)
    ensures |Selected(arr, keep, j)| < |Selected(arr, keep, |arr|)|
    ensures Selected(arr, keep, |arr|)[|Selected(arr, keep, j)|] == j
  {
    SelectedPrefix(arr, keep, j + 1, |arr|);
  }

  // ---------------------------------------------------------------- forEach

  predicate IsDefined<T>(slot: Option<T>, i: nat)
  {
    slot.Some?
  }

  /** `forEach` returns at index `i` when the slot is defined and the callback
      answered exactly `false`. */
  predicate StopsAt<T>(arr: seq<Option<T>>, fn: (T, nat) -> Option<bool>, i: nat)
    requires i < |arr|
  {
    arr[i].Some? && fn(arr[i].value, i) == Some(false)
  }

  /** `Array.prototype.forEach`: calls `fn` on every defined slot in index order
      (`calls` lists the indices it was called with) and returns the first index
      whose call answered `false`, or nothing. */
  method ForEach<T>(arr: seq<Option<T>>, fn: (T, nat) -> Option<bool>)
    returns (stop: Option<nat>, calls: seq<nat>)
    ensures stop.Some? ==> stop.value < |arr| && StopsAt(arr, fn, stop.value)
    ensures forall j :: 0 <= j < |arr| && StopsAt(arr, fn, j) ==> stop.Some? && stop.value <= j
    ensures calls == Selected(arr, IsDefined, if stop.Some? then stop.value + 1 else |arr|)
  {
    calls := [];
    var i: nat := 0;
    while i < |arr|
      invariant i <= |arr|
      invariant forall j :: 0 <= j < i ==> !StopsAt(arr, fn, j)
      invariant calls == Selected(arr, IsDefined, i)
    {
      if arr[i].Some? {
        calls := calls + [i];
        if fn(arr[i].value, i) == Some(false) {
          return Some(i), calls;
        }
      }
      i := i + 1;
    }
    stop := None;
  }

  // ---------------------------------------------------------------- map

  /** `Array.prototype.map`: a new array of the same length holding `fn` of each
      element and its index. */
  method Map<T, U>(arr: seq<T>, fn: (T, nat) -> U) returns (results: seq<U>)
    ensures |results| == |arr|
    ensures forall i :: 0 <= i < |arr| ==> results[i] == fn(arr[i], i)
  {
    results := [];
    var i: nat := 0;
    while i < |arr|
      invariant i <= |arr|
      invariant |results| == i
      invariant forall j :: 0 <= j < i ==> results[j] == fn(arr[j], j)
    {
      results := results + [fn(arr[i], i)];
      i := i + 1;
    }
  }

  // ---------------------------------------------------------------- indexOf

  /** Reading `arr[i]`: outside the array (a negative `i` included) the result is
      `undefined`. */
  function At<T>(arr: seq<Option<T>>, i: int): Option<T>
  {
    if 0 <= i < |arr| then arr[i] else None
  }

  /** `fromIndex || 0`: an omitted (or zero) start index means 0. */
  function StartIndex(fromIndex: Option<int>): int
  {
    fromIndex.GetOr(0)
  }

  /** `Array.prototype.indexOf`: the first index from `fromIndex` on whose element
      is `member`, or -1. A negative `fromIndex` is not clamped, so searching for
      `undefined` from a negative index answers that negative index. */
  method IndexOf<T(==)>(arr: seq<Option<T>>, member: Option<T>, fromIndex: Option<int>)
    returns (r: int)
    ensures var start := StartIndex(fromIndex);
      if exists i :: start <= i < |arr| && At(arr, i) == member
      then start <= r < |arr| && At(arr, r) == member
           && forall j :: start <= j < r ==> At(arr, j) != member
      else r == -1
  {
    var i := StartIndex(fromIndex);
    var len := |arr|;
    while i < len
      invariant StartIndex(fromIndex) <= i || len <= StartIndex(fromIndex)
      invariant forall j :: StartIndex(fromIndex) <= j < i && j < len ==> At(arr, j) != member
      decreases len - i
    {
      if At(arr, i) == member {
        return i;
      }
      i := i + 1;
    }
    return -1;
  }

  // ---------------------------------------------------------------- filter

  /** `Array.prototype.filter`: the elements whose callback is truthy, in their
      original order. */
  method Filter<T>(arr: seq<T>, fn: (T, nat) -> bool) returns (ret: seq<T>)
    ensures var idx := Selected(arr, fn, |arr|);
      |ret| == |idx| && forall j :: 0 <= j < |ret| ==> ret[j] == arr[idx[j]]
    ensures |ret| <= |arr|
  {
    ret := [];
    var i: nat := 0;
    while i < |arr|
      invariant i <= |arr|
      invariant var idx := Selected(arr, fn, i);
        |ret| == |idx| && forall j :: 0 <= j < |ret| ==> ret[j] == arr[idx[j]]
    {
      if fn(arr[i], i) {
        ret := ret + [arr[i]];
      }
      i := i + 1;
    }
  }

  // ---------------------------------------------------------------- some

  /** `Array.prototype.some`: true exactly when a callback answers `true` (the
      boolean, not merely a truthy value). `invoked` is the number of callbacks
      made: the scan stops right after the first such answer. */
  method ArraySome<T>(arr: seq<T>, fn: (T, nat) -> Option<bool>) returns (found: bool, invoked: nat)
    ensures found <==> exists i :: 0 <= i < |arr| && fn(arr[i], i) == Some(true)
    ensures invoked <= |arr|
    ensures found ==> 0 < invoked && fn(arr[invoked - 1], invoked - 1) == Some(true)
    ensures !found ==> invoked == |arr|
    ensures forall j :: 0 <= j < invoked - 1 ==> fn(arr[j], j) != Some(true)
  {
    var i: nat := 0;
    while i < |arr|
      invariant i <= |arr|
      invariant forall j :: 0 <= j < i ==> fn(arr[j], j) != Some(true)
    {
      if fn(arr[i], i) == Some(true) {
        return true, i + 1;
      }
      i := i + 1;
    }
    return false, |arr|;
  }

  // ---------------------------------------------------------------- reduce

  /** The left fold of `func` over the indices `lo .. hi-1`, starting from `seed`. */
  function FoldRange<T>(arr: seq<T>, func: (T, T, nat) -> T, seed: T, lo: nat, hi: nat): T
    requires lo <= hi <= |arr|
    decreases hi
  {
    if hi == lo then seed
    else func(FoldRange(arr, func, seed, lo, hi - 1), arr[hi - 1], hi - 1)
  }

  /** A left fold consumes the leftmost element first. */
  lemma {:induction false} FoldRangeFirstStep<T>(arr: seq<T>, func: (T, T, nat) -> T, seed: T, lo: nat, hi: nat)
    requires lo < hi <= |arr|
    ensures FoldRange(arr, func, seed, lo, hi)
         == FoldRange(arr, func, func(seed, arr[lo], lo), lo + 1, hi)
    decreases hi
  {
    if lo + 1 < hi {
      FoldRangeFirstStep(arr, func, seed, lo, hi - 1);
    }
  }

  /** `Array.prototype.reduce`: with an initial value, a left fold from index 0;
      without one, a left fold from index 1 seeded with `arr[0]` (and `undefined`
      for an empty array). */
  method Reduce<T>(arr: seq<T>, func: (T, T, nat) -> T, initialValue: Option<T>)
    returns (r: Option<T>)
    ensures initialValue.Some? ==> r == Some(FoldRange(arr, func, initialValue.value, 0, |arr|))
    ensures initialValue.None? && |arr| > 0 ==> r == Some(FoldRange(arr, func, arr[0], 1, |arr|))
    ensures initialValue.None? && |arr| == 0 ==> r == None
  {
    if initialValue.None? && |arr| == 0 {
      return None;
    }
    var i: nat := if initialValue.Some? then 0 else 1;
    var accumulator := if initialValue.Some? then initialValue.value else arr[0];
    ghost var start := i;
    ghost var seed := accumulator;
    while i < |arr|
      invariant start <= i <= |arr|
      invariant accumulator == FoldRange(arr, func, seed, start, i)
    {
      accumulator := func(accumulator, arr[i], i);
      i := i + 1;
    }
    r := Some(accumulator);
  }

  // ---------------------------------------------------------------- Object.keys

  /** A property name as a `for ... in` loop enumerates it, with whether the object
      has it as an own property (`hasOwnProperty`). */
  datatype Property = Property(name: string, own: bool)

  predicate IsOwn(p: Property, i: nat)
  {
    p.own
  }

  /** The names of the own properties, in enumeration order. */
  function OwnKeys(enumerated: seq<Property>): seq<string>
  {
    var idx := Selected(enumerated, IsOwn, |enumerated|);
    seq(|idx|, j requires 0 <= j < |idx| => enumerated[idx[j]].name)
  }

  predicate DistinctNames(enumerated: seq<Property>)
  {
    forall i, j :: 0 <= i < j < |enumerated| ==> enumerated[i].name != enumerated[j].name
  }

  /** `Object.keys`: exactly the own enumerated names; inherited names are left out,
      and, since `for ... in` yields every name once, no name is repeated. */
  lemma OwnKeysExact(enumerated: seq<Property>)
    ensures forall name :: name in OwnKeys(enumerated) <==>
      exists i :: 0 <= i < |enumerated| && enumerated[i].own && enumerated[i].name == name
    ensures DistinctNames(enumerated) ==>
      forall a, b :: 0 <= a < b < |OwnKeys(enumerated)| ==> OwnKeys(enumerated)[a] != OwnKeys(enumerated)[b]
  {
    var idx := Selected(enumerated, IsOwn, |enumerated|);
    var keys := OwnKeys(enumerated);
    forall name | name in keys
      ensures exists i :: 0 <= i < |enumerated| && enumerated[i].own && enumerated[i].name == name
    {
      var j :| 0 <= j < |keys| && keys[j] == name;
      assert IsOwn(enumerated[idx[j]], idx[j]);
    }
    forall name | exists i :: 0 <= i < |enumerated| && enumerated[i].own && enumerated[i].name == name
      ensures name in keys
    {
      var i :| 0 <= i < |enumerated| && enumerated[i].own && enumerated[i].name == name;
      assert IsOwn(enumerated[i], i);
      var j :| 0 <= j < |idx| && idx[j] == i;
      assert keys[j] == name;
    }
  }

  /** `Object.keys` as the loop over a `for ... in` enumeration. */
  method Keys(enumerated: seq<Property>) returns (result: seq<string>)
    ensures result == OwnKeys(enumerated)
  {
    result := [];
    var i: nat := 0;
    while i < |enumerated|
      invariant i <= |enumerated|
      invariant var idx := Selected(enumerated, IsOwn, i);
        |result| == |idx| && forall j :: 0 <= j < |result| ==> result[j] == enumerated[idx[j]].name
    {
      if enumerated[i].own {
        result := result + [enumerated[i].name];
      }
      i := i + 1;
    }
  }
}
