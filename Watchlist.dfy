/** The watchlist updates of `src/store/marketStore.ts`: `[...new Set([...list, s])]`
    and `list.filter((x) => x !== s)`. */
module Watchlist {

  predicate NoDuplicates(s: seq<string>) {
    forall i, j :: 0 <= i < j < |s| ==> s[i] != s[j]
  }

  /** `[...new Set(s)]`: the elements of `s` in the order of their first occurrence. */
  function Dedup(s: seq<string>): (r: seq<string>)
    ensures NoDuplicates(r)
    ensures forall x :: x in r <==> x in s
    ensures |r| <= |s|
  {
    if s == [] then []
    else
      var d := Dedup(s[..|s| - 1]);
      var x := s[|s| - 1];
      assert forall y :: y in s <==> y in s[..|s| - 1] || y == x by {
        assert s == s[..|s| - 1] + [x];
      }
      if x in d then d else d + [x]
  }

  /** A list that holds no duplicates is already its own set. */
  lemma {:induction false} DedupOfDistinct(s: seq<string>)
    requires NoDuplicates(s)
    ensures Dedup(s) == s
  {
    if s != [] {
      var p := s[..|s| - 1];
      assert NoDuplicates(p);
      DedupOfDistinct(p);
      assert s[|s| - 1] !in p;
      assert s == p + [s[|s| - 1]];
    }
  }

  /** First occurrences keep their order: every element of `Dedup(s)` sits in `s`
      no later than the elements after it in `Dedup(s)`. */
  lemma {:induction false} DedupKeepsFirstOrder(s: seq<string>, i: int, j: int)
    requires 0 <= i < j < |Dedup(s)|
    ensures FirstIndex(s, Dedup(s)[i]) < FirstIndex(s, Dedup(s)[j])
  {
    var p := s[..|s| - 1];
    var x := s[|s| - 1];
    var d := Dedup(p);
    FirstIndexOfPrefix(s, p, Dedup(s)[i]);
    if j < |d| {
      DedupKeepsFirstOrder(p, i, j);
      FirstIndexOfPrefix(s, p, Dedup(s)[j]);
    } else {
      assert Dedup(s)[j] == x && x !in p;
      assert FirstIndex(s, x) == |s| - 1;
    }
  }

  /** The index of the first occurrence of `x` in `s`. */
  function FirstIndex(s: seq<string>, x: string): (i: nat)
    requires x in s
    ensures i < |s| && s[i] == x && x !in s[..i]
  {
    if s[0] == x then 0 else 1 + FirstIndex(s[1..], x)
  }

  lemma FirstIndexOfPrefix(s: seq<string>, p: seq<string>, x: string)
    requires s != [] && p == s[..|s| - 1] && x in p
    ensures FirstIndex(s, x) == FirstIndex(p, x)
  {
    var k := FirstIndex(p, x);
    assert s[..k] == p[..k];
    FirstIndexUnique(s, x, k);
  }

  lemma FirstIndexUnique(s: seq<string>, x: string, k: nat)
    requires k < |s| && s[k] == x && x !in s[..k]
    ensures FirstIndex(s, x) == k
  {
  }

  /** `addToWatchlist`: a distinct list gets `symbol` at its tail unless it already holds it. */
  function Add(list: seq<string>, symbol: string): (r: seq<string>)
    ensures symbol in r && NoDuplicates(r)
    ensures forall x :: x in r <==> x in list || x == symbol
    ensures NoDuplicates(list) ==> r == if symbol in list then list else list + [symbol]
  {
    var r := Dedup(list + [symbol]);
    if NoDuplicates(list) then
      assert NoDuplicates(list + [symbol]) || symbol in list;
      AddToDistinct(list, symbol);
      r
    else r
  }

  lemma AddToDistinct(list: seq<string>, symbol: string)
    requires NoDuplicates(list)
    ensures Dedup(list + [symbol]) == if symbol in list then list else list + [symbol]
  {
    var s := list + [symbol];
    assert s[..|s| - 1] == list;
    DedupOfDistinct(list);
    if symbol !in list {
      assert NoDuplicates(s);
    }
  }

  /** Adding the same symbol twice is the same as adding it once. */
  lemma AddIdempotent(list: seq<string>, symbol: string)
    ensures Add(Add(list, symbol), symbol) == Add(list, symbol)
  {
  }

  /** `removeFromWatchlist`: every occurrence of `symbol` goes, the rest stay in order. */
  function Remove(list: seq<string>, symbol: string): (r: seq<string>)
    ensures symbol !in r
    ensures forall x :: x in r <==> x in list && x != symbol
    ensures multiset(r) == multiset(list)[symbol := 0]
    ensures symbol !in list ==> r == list
  {
    if list == [] then []
    else
      var rest := Remove(list[1..], symbol);
      assert list == [list[0]] + list[1..];
      if list[0] == symbol then rest else [list[0]] + rest
  }

  /** Removal keeps relative order: it distributes over concatenation. */
  lemma {:induction false} RemoveAppend(a: seq<string>, b: seq<string>, symbol: string)
    ensures Remove(a + b, symbol) == Remove(a, symbol) + Remove(b, symbol)
  {
    if a == [] {
      assert a + b == b;
    } else {
      assert (a + b)[0] == a[0] && (a + b)[1..] == a[1..] + b;
      RemoveAppend(a[1..], b, symbol);
    }
  }

  /** A removal keeps a distinct list distinct. */
  lemma {:induction false} RemoveKeepsDistinct(list: seq<string>, symbol: string)
    requires NoDuplicates(list)
    ensures NoDuplicates(Remove(list, symbol))
  {
    if list != [] {
      assert NoDuplicates(list[1..]);
      RemoveKeepsDistinct(list[1..], symbol);
      assert list[0] !in list[1..];
    }
  }

  /** Removing a symbol just added to a distinct list gives what removing it from the original gives. */
  lemma RemoveUndoesAdd(list: seq<string>, symbol: string)
    requires NoDuplicates(list)
    ensures Remove(Add(list, symbol), symbol) == Remove(list, symbol)
  {
    if symbol !in list {
      RemoveAppend(list, [symbol], symbol);
      assert Remove([symbol], symbol) == Remove([], symbol);
    }
  }
}
