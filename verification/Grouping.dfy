/** Picking the elements of a list that share their key with no other element. */
module Grouping {

  /** Equal keys stand next to each other. */
  ghost predicate Grouped<T>(c: seq<T>, key: T -> string) {
    forall i, j, k | 0 <= i < j < k < |c| && key(c[i]) == key(c[k]) :: key(c[j]) == key(c[i])
  }

  /** Element i shares its key with no other element, and the key is not taken. */
  ghost predicate LoneAt<T>(c: seq<T>, key: T -> string, taken: set<string>, i: nat)
    requires i < |c|
  {
    key(c[i]) !in taken && forall j | 0 <= j < |c| && j != i :: key(c[j]) != key(c[i])
  }

  ghost function Lones<T>(c: seq<T>, key: T -> string, taken: set<string>, n: nat): seq<T>
    requires n <= |c|
  {
    if n == 0 then []
    else Lones(c, key, taken, n - 1) + (if LoneAt(c, key, taken, n - 1) then [c[n - 1]] else [])
  }

  lemma {:induction false} RunAddsNothing<T>(c: seq<T>, key: T -> string, taken: set<string>, index: nat, next: nat)
    requires index <= next <= |c|
    requires forall j | index <= j < next :: !LoneAt(c, key, taken, j)
    ensures Lones(c, key, taken, next) == Lones(c, key, taken, index)
    decreases next
  {
    if index < next {
      RunAddsNothing(c, key, taken, index, next - 1);
    }
  }

  /** A run of equal keys that cannot be extended on either side. */
  ghost predicate Run<T>(c: seq<T>, key: T -> string, index: nat, next: nat) {
    && index < next <= |c|
    && (forall j | index <= j < next :: key(c[j]) == key(c[index]))
    && (index > 0 ==> key(c[index - 1]) != key(c[index]))
    && (next < |c| ==> key(c[next]) != key(c[index]))
  }

  lemma RunOfOneIsLone<T>(c: seq<T>, key: T -> string, taken: set<string>, i: nat)
    requires Grouped(c, key) && Run(c, key, i, i + 1)
    ensures LoneAt(c, key, taken, i) <==> key(c[i]) !in taken
  {
    forall j | 0 <= j < |c| && j != i
      ensures key(c[j]) != key(c[i])
    {
    }
  }

  lemma LongRunHasNoLone<T>(c: seq<T>, key: T -> string, taken: set<string>, index: nat, next: nat, j: nat)
    requires Run(c, key, index, next) && next > index + 1 && index <= j < next
    ensures !LoneAt(c, key, taken, j)
  {
    var other := if j == index then index + 1 else index;
    assert key(c[other]) == key(c[j]);
  }

  /** One run contributes its element if it is alone and its key free, and nothing otherwise. */
  lemma RunContributes<T>(c: seq<T>, key: T -> string, taken: set<string>, index: nat, next: nat)
    requires Grouped(c, key) && Run(c, key, index, next)
    ensures Lones(c, key, taken, next)
         == Lones(c, key, taken, index) + (if key(c[index]) !in taken && next == index + 1 then [c[index]] else [])
  {
    if next == index + 1 {
      RunOfOneIsLone(c, key, taken, index);
    } else {
      forall j | index <= j < next
        ensures !LoneAt(c, key, taken, j)
      {
        LongRunHasNoLone(c, key, taken, index, next, j);
      }
      RunAddsNothing(c, key, taken, index, next);
    }
  }

  /** The loop over runs of equal keys. */
  method PickLone<T>(c: seq<T>, key: T -> string, taken: set<string>) returns (picked: seq<T>)
    requires Grouped(c, key)
    ensures picked == Lones(c, key, taken, |c|)
  {
    picked := [];
    var index := 0;
    while index < |c|
      invariant 0 <= index <= |c|
      invariant 0 < index < |c| ==> key(c[index - 1]) != key(c[index])
      invariant picked == Lones(c, key, taken, index)
    {
      var next := index + 1;
      while next < |c| && key(c[next]) == key(c[index])
        invariant index < next <= |c|
        invariant forall j | index <= j < next :: key(c[j]) == key(c[index])
      {
        next := next + 1;
      }
      RunContributes(c, key, taken, index, next);
      if key(c[index]) !in taken && next - index == 1 {
        picked := picked + [c[index]];
      }
      index := next;
    }
  }

  /** What is picked, element by element. */
  lemma {:induction false} LonesCount<T>(c: seq<T>, key: T -> string, taken: set<string>, n: nat, x: T)
    requires n <= |c|
    ensures multiset(Lones(c, key, taken, n))[x]
         == if exists i | 0 <= i < n :: c[i] == x && LoneAt(c, key, taken, i) then 1 else 0
  {
    if n > 0 {
      LonesCount(c, key, taken, n - 1, x);
    }
  }

  /** An element occurs once exactly when no other place holds it. */
  lemma CountOthers<T>(c: seq<T>, i: nat)
    requires i < |c|
    ensures multiset(c)[c[i]] == 1 <==> forall j | 0 <= j < |c| && j != i :: c[j] != c[i]
  {
    var rest := c[..i] + c[i + 1..];
    assert c == c[..i] + [c[i]] + c[i + 1..];
    assert multiset(c) == multiset(rest) + multiset{c[i]};
    assert forall j | 0 <= j < |c| && j != i :: c[j] == rest[if j < i then j else j - 1];
    assert forall k | 0 <= k < |rest| :: rest[k] == c[if k < i then k else k + 1];
    assert c[i] in multiset(rest) <==> c[i] in rest;
  }

  /** In the multiset: the only one of its kind and of its key, and the key is not taken. */
  ghost predicate Lone<T(!new)>(all: multiset<T>, key: T -> string, taken: set<string>, x: T) {
    && all[x] == 1
    && (forall y | y in all && key(y) == key(x) :: y == x)
    && key(x) !in taken
  }

  lemma LoneAtIsLone<T(!new)>(c: seq<T>, key: T -> string, taken: set<string>, i: nat)
    requires i < |c|
    ensures LoneAt(c, key, taken, i) <==> Lone(multiset(c), key, taken, c[i])
  {
    var m := multiset(c);
    CountOthers(c, i);
    if LoneAt(c, key, taken, i) {
      forall y | y in m && key(y) == key(c[i])
        ensures y == c[i]
      {
        var j :| 0 <= j < |c| && c[j] == y;
      }
    }
    if Lone(m, key, taken, c[i]) {
      forall j | 0 <= j < |c| && j != i
        ensures key(c[j]) != key(c[i])
      {
        assert c[j] in m;
      }
    }
  }

  /** The picked elements are the lone ones, each once: the order of the list does not matter. */
  lemma LonesAreLone<T(!new)>(c: seq<T>, key: T -> string, taken: set<string>, x: T)
    ensures multiset(Lones(c, key, taken, |c|))[x] == if Lone(multiset(c), key, taken, x) then 1 else 0
  {
    LonesCount(c, key, taken, |c|, x);
    forall i | 0 <= i < |c| && c[i] == x
      ensures LoneAt(c, key, taken, i) <==> Lone(multiset(c), key, taken, x)
    {
      LoneAtIsLone(c, key, taken, i);
    }
    if Lone(multiset(c), key, taken, x) {
      assert x in multiset(c);
    }
  }
}
