/** Small value types and sequence helpers shared by the three models. */
module Common {

  datatype Option<T> = None | Some(value: T)

  /** The status value the C++ code returns (`Status::OK()` or an error). */
  datatype Status = Ok | Error(message: string)

  /** The elements of `s` that occur in `allowed`, in their original order
      (the `std::find ... != end()` filters). */
  function KeepIn<T(==,!new)>(s: seq<T>, allowed: seq<T>): (r: seq<T>)
    ensures |r| <= |s|
    ensures forall x :: x in r <==> x in s && x in allowed
    ensures Subsequence(r, s)
  {
    if s == [] then []
    else if s[0] in allowed then [s[0]] + KeepIn(s[1..], allowed)
    else KeepIn(s[1..], allowed)
  }

  /** The elements of `s` that do not occur in `other`, in their original order. */
  function DropIn<T(==,!new)>(s: seq<T>, other: seq<T>): (r: seq<T>)
    ensures |r| <= |s|
    ensures forall x :: x in r <==> x in s && x !in other
    ensures Subsequence(r, s)
  {
    if s == [] then []
    else if s[0] in other then DropIn(s[1..], other)
    else [s[0]] + DropIn(s[1..], other)
  }

  /** `r` is `s` with some elements left out and the rest in the same order. */
  predicate Subsequence<T(==,!new)>(r: seq<T>, s: seq<T>)
  {
    if r == [] then true
    else if s == [] then false
    else if r[0] == s[0] then Subsequence(r[1..], s[1..])
    else Subsequence(r, s[1..])
  }

  /** A non-empty sequence is its front followed by its last element. */
  lemma SplitLast<T>(s: seq<T>)
    requires s != []
    ensures s == s[..|s| - 1] + [s[|s| - 1]]
  {
  }

  /** One more element: the filter keeps it exactly when it is allowed. */
  lemma {:induction false} KeepInSnoc<T(!new)>(s: seq<T>, x: T, allowed: seq<T>)
    ensures KeepIn(s + [x], allowed) == KeepIn(s, allowed) + (if x in allowed then [x] else [])
  {
    if s == [] {
      assert s + [x] == [x] && [x][1..] == [];
    } else {
      assert (s + [x])[0] == s[0] && (s + [x])[1..] == s[1..] + [x];
      KeepInSnoc(s[1..], x, allowed);
    }
  }

  /** One more element: the filter keeps it exactly when it is not in `other`. */
  lemma {:induction false} DropInSnoc<T(!new)>(s: seq<T>, x: T, other: seq<T>)
    ensures DropIn(s + [x], other) == DropIn(s, other) + (if x in other then [] else [x])
  {
    if s == [] {
      assert s + [x] == [x] && [x][1..] == [];
    } else {
      assert (s + [x])[0] == s[0] && (s + [x])[1..] == s[1..] + [x];
      DropInSnoc(s[1..], x, other);
    }
  }

  /** The filters of the prefix `s[..i+1]` extend those of `s[..i]` by `s[i]`
      on exactly one side. */
  lemma PrefixStep<T(!new)>(s: seq<T>, i: nat, other: seq<T>)
    requires i < |s|
    ensures KeepIn(s[..i + 1], other) == KeepIn(s[..i], other) + (if s[i] in other then [s[i]] else [])
    ensures DropIn(s[..i + 1], other) == DropIn(s[..i], other) + (if s[i] in other then [] else [s[i]])
  {
    assert s[..i + 1] == s[..i] + [s[i]];
    KeepInSnoc(s[..i], s[i], other);
    DropInSnoc(s[..i], s[i], other);
  }

  /** Every element of `s` goes to exactly one of the two filters: the two
      lengths add up to the length of `s`. */
  lemma {:induction false} KeepDropPartition<T(!new)>(s: seq<T>, other: seq<T>)
    ensures |KeepIn(s, other)| + |DropIn(s, other)| == |s|
    ensures multiset(KeepIn(s, other)) + multiset(DropIn(s, other)) == multiset(s)
  {
    if s != [] {
      KeepDropPartition(s[1..], other);
      assert s == [s[0]] + s[1..];
    }
  }
}
