/**
 * The browser-held watchlist of `src/utils/watchlist.ts`: an ordered list of
 * symbols kept under one local-storage key. Outside the browser there is no
 * storage: reads give the empty list and writes are dropped. The JSON encoding
 * of the list is taken to round-trip, so the stored item is the list itself.
 */
module Watchlist {
  import opened Wrappers

  /** Whether code runs in a browser, and what the storage key holds (if anything). */
  datatype Storage = Storage(inBrowser: bool, saved: Option<seq<string>>)

  /** What an add or remove returns to its caller, and the storage after it. */
  datatype Update = Update(list: seq<string>, storage: Storage)

  /** No symbol occurs twice. */
  predicate NoDuplicates(l: seq<string>) {
    forall i, j :: 0 <= i < j < |l| ==> l[i] != l[j]
  }

  /** `a` is `b` with some elements left out, the rest in their original order. */
  predicate IsSubsequence(a: seq<string>, b: seq<string>)
    decreases |b|
  {
    if |a| == 0 then true
    else if |b| == 0 then false
    else (a[0] == b[0] && IsSubsequence(a[1..], b[1..])) || IsSubsequence(a, b[1..])
  }

  /** `getWatchlist`: the stored list, or empty outside the browser or when nothing is stored. */
  function Current(s: Storage): (r: seq<string>)
    ensures !s.inBrowser || s.saved.None? ==> r == []
    ensures s.inBrowser && s.saved.Some? ==> r == s.saved.value
  {
    if !s.inBrowser then [] else s.saved.GetOr([])
  }

  /** `saveWatchlist`: store the list in the browser; outside it, nothing happens. */
  function Save(s: Storage, l: seq<string>): (r: Storage)
    ensures r.inBrowser == s.inBrowser
    ensures !s.inBrowser ==> r == s
    ensures s.inBrowser ==> Current(r) == l
  {
    if s.inBrowser then s.(saved := Some(l)) else s
  }

  /** `isInWatchlist`. */
  predicate Contains(s: Storage, symbol: string) {
    symbol in Current(s)
  }

  /**
   * `list.filter(item => item !== symbol)`: every occurrence of `symbol`
   * removed, every other element kept, in order.
   */
  function RemoveAll(l: seq<string>, symbol: string): (r: seq<string>)
    ensures symbol !in r
    ensures IsSubsequence(r, l)
    ensures forall y :: y != symbol ==> multiset(r)[y] == multiset(l)[y]
    decreases |l|
  {
    if |l| == 0 then []
    else
      var rest := RemoveAll(l[1..], symbol);
      assert l == [l[0]] + l[1..];
      assert multiset(l) == multiset{l[0]} + multiset(l[1..]);
      if l[0] == symbol then
        SubsequenceOfTail(rest, l);
        rest
      else
        assert multiset([l[0]] + rest) == multiset{l[0]} + multiset(rest);
        [l[0]] + rest
  }

  /** Removing keeps "no symbol twice". */
  lemma {:induction false} RemoveAllKeepsNoDuplicates(l: seq<string>, symbol: string)
    requires NoDuplicates(l)
    ensures NoDuplicates(RemoveAll(l, symbol))
    decreases |l|
  {
    if |l| > 0 {
      var rest := RemoveAll(l[1..], symbol);
      assert NoDuplicates(l[1..]);
      RemoveAllKeepsNoDuplicates(l[1..], symbol);
      if l[0] != symbol {
        SubsequenceElements(rest, l[1..]);
        assert l[0] !in l[1..];
        var r := [l[0]] + rest;
        forall i, j | 0 <= i < j < |r|
          ensures r[i] != r[j]
        {
          if i == 0 {
            assert r[j] in rest;
          }
        }
      }
    }
  }

  /** `addToWatchlist`: append the symbol if absent and persist; otherwise change nothing. */
  function Add(s: Storage, symbol: string): (r: Update)
    ensures symbol in Current(s) ==> r == Update(Current(s), s)
    ensures symbol !in Current(s) ==> r.list == Current(s) + [symbol] && r.storage == Save(s, r.list)
    ensures symbol in r.list
    ensures NoDuplicates(Current(s)) ==> NoDuplicates(r.list)
  {
    var current := Current(s);
    if symbol !in current then
      var updated := current + [symbol];
      Update(updated, Save(s, updated))
    else
      Update(current, s)
  }

  /** `removeFromWatchlist`: drop every occurrence and persist, present or not. */
  function Remove(s: Storage, symbol: string): (r: Update)
    ensures r.storage == Save(s, r.list)
    ensures symbol !in r.list
    ensures IsSubsequence(r.list, Current(s))
    ensures forall y :: y != symbol ==> multiset(r.list)[y] == multiset(Current(s))[y]
  {
    var updated := RemoveAll(Current(s), symbol);
    Update(updated, Save(s, updated))
  }

  // ---------------------------------------------------------------------------
  // Helper facts about subsequences

  lemma {:induction false} SubsequenceOfTail(a: seq<string>, b: seq<string>)
    requires |b| > 0
    requires IsSubsequence(a, b[1..])
    ensures IsSubsequence(a, b)
  {
  }

  lemma {:induction false} SubsequenceElements(a: seq<string>, b: seq<string>)
    requires IsSubsequence(a, b)
    ensures forall y :: y in a ==> y in b
    decreases |b|
  {
    if |a| > 0 && |b| > 0 {
      if a[0] == b[0] && IsSubsequence(a[1..], b[1..]) {
        SubsequenceElements(a[1..], b[1..]);
        assert a == [a[0]] + a[1..];
      } else {
        SubsequenceElements(a, b[1..]);
      }
    }
  }

  lemma {:induction false} SubsequenceCount(a: seq<string>, b: seq<string>, y: string)
    requires IsSubsequence(a, b)
    ensures multiset(a)[y] <= multiset(b)[y]
    decreases |b|
  {
    if |a| > 0 && |b| > 0 {
      assert b == [b[0]] + b[1..];
      if a[0] == b[0] && IsSubsequence(a[1..], b[1..]) {
        assert a == [a[0]] + a[1..];
        SubsequenceCount(a[1..], b[1..], y);
      } else {
        SubsequenceCount(a, b[1..], y);
      }
    }
  }

  /**
   * `RemoveAll` is the only list that is an order-preserving selection from
   * `l`, avoids `symbol`, and keeps every other symbol as often as `l` has it.
   */
  lemma {:induction false} RemoveAllIsUnique(l: seq<string>, symbol: string, r: seq<string>)
    requires IsSubsequence(r, l)
    requires symbol !in r
    requires forall y :: y != symbol ==> multiset(r)[y] == multiset(l)[y]
    ensures r == RemoveAll(l, symbol)
    decreases |l|
  {
    if |l| == 0 {
      assert |r| == 0;
    } else {
      assert l == [l[0]] + l[1..];
      var t := l[1..];
      assert multiset(l) == multiset{l[0]} + multiset(t);
      if l[0] == symbol {
        if |r| > 0 {
          assert r[0] in r;
        }
        assert IsSubsequence(r, t);
        RemoveAllIsUnique(t, symbol, r);
      } else {
        if !(|r| > 0 && r[0] == l[0] && IsSubsequence(r[1..], t)) {
          // Skipping l[0] would leave one occurrence of it too few.
          assert IsSubsequence(r, t);
          SubsequenceCount(r, t, l[0]);
        }
        assert |r| > 0 && r[0] == l[0] && IsSubsequence(r[1..], t);
        {
          assert r == [r[0]] + r[1..];
          assert multiset(r) == multiset{r[0]} + multiset(r[1..]);
          forall y | y != symbol
            ensures multiset(r[1..])[y] == multiset(t)[y]
          {
            assert multiset(r)[y] == multiset(l)[y];
          }
          assert forall y :: y in r[1..] ==> y in r;
          RemoveAllIsUnique(t, symbol, r[1..]);
        }
      }
    }
  }

  // ---------------------------------------------------------------------------
  // Laws of the watchlist operations

  /** Storage round trip: what is saved in the browser is what the next read sees. */
  lemma SaveThenRead(s: Storage, l: seq<string>)
    requires s.inBrowser
    ensures Current(Save(s, l)) == l
  {
  }

  /** Adding twice is adding once: same list, same storage. */
  lemma AddIdempotent(s: Storage, symbol: string)
    ensures Add(Add(s, symbol).storage, symbol) == Add(s, symbol)
  {
  }

  /** Removing twice is removing once. */
  lemma {:induction false} RemoveIdempotent(s: Storage, symbol: string)
    ensures Remove(Remove(s, symbol).storage, symbol) == Remove(s, symbol)
  {
    var r1 := Remove(s, symbol);
    if s.inBrowser {
      assert Current(r1.storage) == r1.list;
      RemoveAbsent(r1.list, symbol);
    }
  }

  /** Removing a symbol that is not there leaves the list as it was. */
  lemma {:induction false} RemoveAbsent(l: seq<string>, symbol: string)
    requires symbol !in l
    ensures RemoveAll(l, symbol) == l
    decreases |l|
  {
    if |l| > 0 {
      assert l[0] in l;
      assert forall y :: y in l[1..] ==> y in l;
      RemoveAbsent(l[1..], symbol);
      assert l == [l[0]] + l[1..];
    }
  }

  /** In the browser, the symbol just added is in the watchlist. */
  lemma AddThenContains(s: Storage, symbol: string)
    requires s.inBrowser
    ensures Contains(Add(s, symbol).storage, symbol)
  {
  }

  /** After a remove the symbol is never in the watchlist, in or out of the browser. */
  lemma RemoveThenNotContains(s: Storage, symbol: string)
    ensures !Contains(Remove(s, symbol).storage, symbol)
  {
  }

  /** Add and remove preserve "no symbol twice" in what storage holds. */
  lemma NoDuplicatesPreserved(s: Storage, symbol: string)
    requires NoDuplicates(Current(s))
    ensures NoDuplicates(Current(Add(s, symbol).storage))
    ensures NoDuplicates(Current(Remove(s, symbol).storage))
  {
    RemoveAllKeepsNoDuplicates(Current(s), symbol);
  }

  /** Outside the browser nothing is ever stored: add and remove leave storage as it was. */
  lemma OutsideBrowserNothingStored(s: Storage, symbol: string)
    requires !s.inBrowser
    ensures Add(s, symbol).storage == s && Remove(s, symbol).storage == s
    ensures Add(s, symbol).list == [symbol] && Remove(s, symbol).list == []
  {
  }
}
