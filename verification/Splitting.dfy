/** Splitting a sequence at every separator, as JavaScript's and Rust's `split`. */
module Splitting {
  import opened Base

  /** The position of the first separator, or the length. */
  function FirstAt<T(==)>(s: seq<T>, sep: T): (i: nat)
    ensures i <= |s| && (i < |s| ==> s[i] == sep)
    ensures sep !in s[..i]
  {
    if s == [] || s[0] == sep then 0
    else
      var i := 1 + FirstAt(s[1..], sep);
      assert s[..i] == [s[0]] + s[1..][..i - 1];
      i
  }

  function Split<T(==)>(s: seq<T>, sep: T): (parts: seq<seq<T>>)
    ensures parts != []
    decreases |s|
  {
    var i := FirstAt(s, sep);
    if i == |s| then [s] else [s[..i]] + Split(s[i + 1..], sep)
  }

  function Join<T>(parts: seq<seq<T>>, sep: T): seq<T>
    requires parts != []
  {
    if |parts| == 1 then parts[0] else parts[0] + [sep] + Join(parts[1..], sep)
  }

  lemma {:induction false} JoinSplit<T>(s: seq<T>, sep: T)
    ensures Join(Split(s, sep), sep) == s
    ensures forall k :: 0 <= k < |Split(s, sep)| ==> sep !in Split(s, sep)[k]
    decreases |s|
  {
    var i := FirstAt(s, sep);
    if i == |s| {
      assert s[..i] == s;
    } else {
      JoinSplit(s[i + 1..], sep);
      assert Split(s, sep)[1..] == Split(s[i + 1..], sep);
      assert s == s[..i] + [sep] + s[i + 1..];
    }
  }

  /** There is only one way to cut a sequence at all of its separators. */
  lemma {:induction false} SplitJoin<T>(parts: seq<seq<T>>, sep: T)
    requires parts != [] && forall k :: 0 <= k < |parts| ==> sep !in parts[k]
    ensures Split(Join(parts, sep), sep) == parts
  {
    var s := Join(parts, sep);
    var i := FirstAt(s, sep);
    if |parts| == 1 {
      assert i == |s|;
    } else {
      var rest := Join(parts[1..], sep);
      assert s == parts[0] + [sep] + rest && s[|parts[0]|] == sep;
      assert forall k :: 0 <= k < |parts[0]| ==> s[k] == parts[0][k];
      assert forall k :: 0 <= k < i ==> s[..i][k] == s[k] && s[k] != sep;
      assert i == |parts[0]|;
      assert s[..i] == parts[0] && s[i + 1..] == rest;
      SplitJoin(parts[1..], sep);
    }
  }
}
