/** Position maps as the reconciliation reads, compares and stores them (reconciliation.py). */
module Positions {
  import opened Wrappers
  import opened Sequences
  import opened Grid
  import Text

  /** One entry of a raw position listing: a symbol text and the quantity found in it, if any. */
  datatype Entry = Entry(symbol: string, quantity: Option<real>)

  type Holdings = map<string, real>

  // ----- The sorted keys of a map

  lemma {:induction false} FindLeast(s: set<string>) returns (l: string)
    requires s != {}
    ensures l in s && forall y :: y in s ==> Text.Leq(l, y)
  {
    hide Text.Leq;
    var x :| x in s;
    var rest := s - {x};
    Text.LeqTotal(x, x);
    if rest == {} {
      assert s == {x};
      l := x;
    } else {
      var m := FindLeast(rest);
      Text.LeqTotal(x, m);
      l := if Text.Leq(x, m) then x else m;
      forall y | y in rest ensures Text.Leq(l, y) {
        if l == x { Text.LeqTransitive(x, m, y); }
      }
      assert forall y :: y in s ==> y == x || y in rest;
    }
  }

  lemma LeastExists(s: set<string>)
    requires s != {}
    ensures exists x :: x in s && forall y :: y in s ==> Text.Leq(x, y)
  {
    var l := FindLeast(s);
  }

  function Least(s: set<string>): (x: string)
    requires s != {}
    ensures x in s && forall y :: y in s ==> Text.Leq(x, y)
  {
    LeastExists(s);
    Text.LeqTotalOrder();
    var x :| x in s && forall y :: y in s ==> Text.Leq(x, y);
    x
  }

  /** `sorted(keys)` */
  function SortedKeys(keys: set<string>): (r: seq<string>)
    ensures Increasing(Text.Leq, r)
    ensures forall x :: x in r <==> x in keys
    decreases |keys|
  {
    hide Text.Leq;
    if keys == {} then []
    else
      var x := Least(keys);
      var rest := SortedKeys(keys - {x});
      IncreasingCons(Text.Leq, x, rest);
      [x] + rest
  }

  // ----- Normalisation

  function SymbolOf(e: Entry): string {
    Text.Upper(Text.Strip(e.symbol))
  }

  predicate Counts(e: Entry) {
    SymbolOf(e) != "" && e.quantity.Some?
  }

  function Symbols(entries: seq<Entry>): set<string> {
    set i | 0 <= i < |entries| && Counts(entries[i]) :: SymbolOf(entries[i])
  }

  /** The total quantity listed for one symbol. */
  function Total(entries: seq<Entry>, symbol: string): real {
    if entries == [] then 0.0
    else
      var last := entries[|entries| - 1];
      Total(entries[..|entries| - 1], symbol) + (if Counts(last) && SymbolOf(last) == symbol then last.quantity.value
                                                 else 0.0)
  }

  function Normalized(entries: seq<Entry>): Holdings {
    map s | s in Symbols(entries) :: Total(entries, s)
  }

  predicate Normal(h: Holdings) {
    forall s :: s in h ==> s != "" && Text.Upper(Text.Strip(s)) == s
  }

  lemma {:induction false} TotalOfAbsent(entries: seq<Entry>, symbol: string)
    requires symbol !in Symbols(entries)
    ensures Total(entries, symbol) == 0.0
  {
    hide Counts, SymbolOf;
    if entries != [] {
      var front := entries[..|entries| - 1];
      assert forall i :: 0 <= i < |front| ==> front[i] == entries[i];
      TotalOfAbsent(front, symbol);
    }
  }

  /** `_normalize_positions`: symbols stripped and upper-cased, quantities of one symbol added up,
      entries without a symbol or a quantity skipped. */
  method NormalizePositions(entries: seq<Entry>) returns (out: Holdings)
    ensures out == Normalized(entries)
  {
    hide SymbolOf, Total;
    out := map[];
    for i := 0 to |entries|
      invariant out == Normalized(entries[..i])
    {
      var before, e := entries[..i], entries[i];
      SymbolsSnoc(before, e);
      TotalSnoc(before, e);
      assert entries[..i + 1] == before + [e];
      if Counts(e) {
        if SymbolOf(e) !in out { TotalOfAbsent(before, SymbolOf(e)); }
        out := out[SymbolOf(e) := (if SymbolOf(e) in out then out[SymbolOf(e)] else 0.0) + e.quantity.value];
      }
    }
    assert entries[..|entries|] == entries;
  }

  lemma SymbolsSnoc(entries: seq<Entry>, e: Entry)
    ensures Symbols(entries + [e]) == Symbols(entries) + (if Counts(e) then {SymbolOf(e)} else {})
  {
    hide Counts, SymbolOf;
    var all := entries + [e];
    forall s ensures s in Symbols(all) <==> s in Symbols(entries) || (Counts(e) && s == SymbolOf(e)) {
      if s in Symbols(entries) {
        var i :| 0 <= i < |entries| && Counts(entries[i]) && SymbolOf(entries[i]) == s;
        assert all[i] == entries[i];
      }
      assert all[|entries|] == e;
    }
  }

  lemma TotalSnoc(entries: seq<Entry>, e: Entry)
    ensures forall s :: Total(entries + [e], s)
              == Total(entries, s) + if Counts(e) && SymbolOf(e) == s then e.quantity.value else 0.0
  {
    assert (entries + [e])[..|entries|] == entries;
  }

  /** Normalised maps have canonical keys. */
  lemma NormalizedIsNormal(entries: seq<Entry>)
    ensures Normal(Normalized(entries))
  {
    forall i | 0 <= i < |entries| && Counts(entries[i])
      ensures Text.Upper(Text.Strip(SymbolOf(entries[i]))) == SymbolOf(entries[i])
    {
      Text.CanonicalCase(entries[i].symbol);
    }
    hide Text.Upper, Text.Strip;
  }

  // ----- The stored form

  function EntriesOf(h: Holdings, keys: seq<string>): (r: seq<Entry>)
    requires forall k :: k in keys ==> k in h
    ensures |r| == |keys| && forall i :: 0 <= i < |r| ==> r[i] == Entry(keys[i], Some(h[keys[i]]))
  {
    seq(|keys|, i requires 0 <= i < |keys| => Entry(keys[i], Some(h[keys[i]])))
  }

  /** The JSON object a position map is written as, its keys sorted. */
  function Stored(h: Holdings): seq<Entry> {
    EntriesOf(h, SortedKeys(h.Keys))
  }

  lemma {:induction false} TotalOfEntries(h: Holdings, keys: seq<string>, symbol: string)
    requires Normal(h) && Distinct(keys) && forall k :: k in keys ==> k in h
    ensures Total(EntriesOf(h, keys), symbol) == if symbol in keys then h[symbol] else 0.0
  {
    hide Text.Upper, Text.Strip;
    if keys != [] {
      var front, last := keys[..|keys| - 1], keys[|keys| - 1];
      assert keys == front + [last];
      TotalOfEntries(h, front, symbol);
      assert EntriesOf(h, keys)[..|keys| - 1] == EntriesOf(h, front);
    }
  }

  /** A stored position map is read back unchanged. */
  lemma StoredReadsBack(h: Holdings)
    requires Normal(h)
    ensures Normalized(Stored(h)) == h
  {
    hide Text.Upper, Text.Strip, Text.Leq, Total;
    var keys := SortedKeys(h.Keys);
    assert Distinct(keys);
    forall s ensures s in Symbols(Stored(h)) <==> s in h {
      if s in h {
        var i :| 0 <= i < |keys| && keys[i] == s;
        assert Counts(Stored(h)[i]) && SymbolOf(Stored(h)[i]) == s;
      }
    }
    forall s | s in h ensures Total(Stored(h), s) == h[s] {
      TotalOfEntries(h, keys, s);
    }
  }
}
