/** The translation history kept in extension storage: newest entry first, at most
    twenty entries. */
module History {

  /** One history item `{t, from, to, src, out}`. */
  datatype Entry = Entry(t: int, from: string, to: string, src: string, out: string)

  /** The stored `history` value: an array of entries, or anything else (missing included). */
  datatype StoredHistory = ListValue(entries: seq<Entry>) | OtherValue

  /** The number of entries kept. */
  const Capacity: nat := 20

  /** The list `getHistory` resolves to: the stored array, or the empty list for any value
      that is not an array. */
  function Loaded(stored: StoredHistory): (list: seq<Entry>)
    ensures stored.ListValue? ==> list == stored.entries
    ensures stored.OtherValue? ==> list == []
  {
    if stored.ListValue? then stored.entries else []
  }

  /** The list `addHistory` stores: `item` first, then the old list, cut to `Capacity`. */
  function WithEntry(list: seq<Entry>, item: Entry): (r: seq<Entry>)
    ensures |r| == if |list| < Capacity then |list| + 1 else Capacity
    ensures r[0] == item
    ensures r[1..] == list[..|r| - 1]
  {
    var all := [item] + list;
    assert all[1..] == list;
    if |all| <= Capacity then all else all[..Capacity]
  }

  /** Adding to a full list keeps twenty entries: the new one, then the old list without its
      oldest (last) entry. */
  lemma FullListEvictsOldest(list: seq<Entry>, item: Entry)
    requires |list| == Capacity
    ensures WithEntry(list, item) == [item] + list[..Capacity - 1]
  {
  }

  /** `s` in reverse order. */
  function Reversed(s: seq<Entry>): (r: seq<Entry>)
    ensures |r| == |s|
    ensures forall k :: 0 <= k < |s| ==> r[k] == s[|s| - 1 - k]
  {
    if s == [] then [] else Reversed(s[1..]) + [s[0]]
  }

  /** The list after adding `items` one at a time, in order. */
  function AddedAll(list: seq<Entry>, items: seq<Entry>): seq<Entry>
    decreases items
  {
    if items == [] then list else AddedAll(WithEntry(list, items[0]), items[1..])
  }

  /** Cutting the tail of a concatenation beyond the prefix one keeps changes nothing. */
  lemma PrefixThroughCut(r: seq<Entry>, p: seq<Entry>, m: nat, k: nat)
    requires m <= |p| && k <= |r| + m
    ensures (r + p[..m])[..k] == (r + p)[..k]
  {
  }

  /** After any sequence of additions to a list of at most twenty entries, the history is
      the new entries newest first, followed by the older list, cut to twenty entries. */
  lemma {:induction false} AddedAllKeepsMostRecent(list: seq<Entry>, items: seq<Entry>)
    requires |list| <= Capacity
    ensures var n := |items| + |list|;
            AddedAll(list, items) == (Reversed(items) + list)[..if n < Capacity then n else Capacity]
    decreases items
  {
    var n := |items| + |list|;
    var m := if n < Capacity then n else Capacity;
    if items == [] {
      assert Reversed(items) + list == list;
    } else {
      var x, rest := items[0], items[1..];
      var w := WithEntry(list, x);
      var r := Reversed(rest);
      var all := [x] + list;
      assert AddedAll(list, items) == AddedAll(w, rest);
      AddedAllKeepsMostRecent(w, rest);
      assert AddedAll(w, rest) == (r + w)[..m];
      assert w == all[..|w|] by {
        assert w == [w[0]] + w[1..];
      }
      PrefixThroughCut(r, all, |w|, m);
      assert Reversed(items) + list == r + all by {
        assert Reversed(items) == r + [x];
      }
    }
  }
}
