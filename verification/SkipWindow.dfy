/**
 The bounded window of skipped message keys, as counters only. Session receiver
 chains (session_cipher.c) and group sender chains (group_cipher.c) both follow it:
 a message may jump at most 2000 counters ahead, at most 2000 skipped keys are kept,
 and the oldest ones are evicted.
 */
module SkipWindow {
  import opened Common

  /** Both the longest jump and the most keys kept. */
  const MAX_MESSAGE_KEYS: nat := 2000

  /** The next counter of the chain and the skipped counters whose keys are stored. */
  datatype Window = Window(index: nat, stored: seq<nat>)

  datatype Verdict = Accepted(window: Window) | Duplicate | TooFar

  function Range(lo: nat, hi: nat): (r: seq<nat>)
    requires lo <= hi
    ensures |r| == hi - lo
    ensures forall i :: 0 <= i < |r| ==> r[i] == lo + i
  {
    seq(hi - lo, i requires 0 <= i => lo + i)
  }

  /** The position of `c` in `s`. */
  function Position(s: seq<nat>, c: nat): (r: nat)
    requires c in s
    ensures r < |s| && s[r] == c
    ensures forall j :: 0 <= j < r ==> s[j] != c
  {
    if s[0] == c then 0 else 1 + Position(s[1..], c)
  }

  /** What asking for the key of counter `c` does to the window. */
  function Take(w: Window, c: nat): Verdict {
    if c < w.index then
      if c in w.stored then Accepted(w.(stored := RemoveAt(w.stored, Position(w.stored, c)))) else Duplicate
    else if c - w.index > MAX_MESSAGE_KEYS then TooFar
    else Accepted(Window(c + 1, LastN(w.stored + Range(w.index, c), MAX_MESSAGE_KEYS)))
  }

  // ---- What became of every counter ----

  /** The counters taken so far and the counters whose stored keys were evicted. */
  datatype History = History(accepted: set<nat>, evicted: set<nat>)

  const NOTHING: History := History({}, {})

  /** The counters whose keys taking `c` evicts. */
  function Evicts(w: Window, c: nat): set<nat> {
    if c < w.index || c - w.index > MAX_MESSAGE_KEYS then {}
    else
      var all := w.stored + Range(w.index, c);
      set n | n in all && n !in LastN(all, MAX_MESSAGE_KEYS)
  }

  function After(h: History, w: Window, c: nat): History {
    History(h.accepted + {c}, h.evicted + Evicts(w, c))
  }

  predicate Increasing(s: seq<nat>) {
    forall i, j :: 0 <= i < j < |s| ==> s[i] < s[j]
  }

  /** The stored list is strictly increasing, short enough and below the chain index. */
  predicate Tidy(first: nat, w: Window) {
    && first <= w.index
    && Increasing(w.stored)
    && |w.stored| <= MAX_MESSAGE_KEYS
    && forall n :: n in w.stored ==> first <= n < w.index
  }

  /** Every counter from `first` up to the index was accepted, is stored or was evicted: exactly one of them. */
  ghost predicate Conserved(first: nat, w: Window, h: History) {
    && Tidy(first, w)
    && (forall n :: n in h.accepted ==> first <= n < w.index && n !in h.evicted && n !in w.stored)
    && (forall n :: n in h.evicted ==> first <= n < w.index && n !in w.stored)
    && (forall n :: first <= n < w.index ==> n in h.accepted || n in h.evicted || n in w.stored)
    && (forall n, m :: n in h.evicted && m in w.stored ==> n < m)
    && (w.index > first ==> w.index - 1 in h.accepted)
  }

  lemma ConservedIsTidy(first: nat, w: Window, h: History)
    requires Conserved(first, w, h)
    ensures Tidy(first, w)
  {
  }

  lemma JumpIsIncreasing(first: nat, w: Window, c: nat)
    requires Tidy(first, w) && w.index <= c
    ensures Increasing(w.stored + Range(w.index, c))
    ensures forall n :: n in w.stored + Range(w.index, c) <==> n in w.stored || w.index <= n < c
  {
    var range := Range(w.index, c);
    var all := w.stored + range;
    forall i, j | 0 <= i < j < |all|
      ensures all[i] < all[j]
    {
      if i < |w.stored| <= j {
        assert all[i] in w.stored;
        assert all[j] == range[j - |w.stored|];
      }
    }
    forall n | w.index <= n < c
      ensures n in all
    {
      assert all[|w.stored| + (n - w.index)] == n;
    }
  }

  /** What a trimmed increasing list keeps lies above everything it drops. */
  lemma TrimKeepsTheLargest(s: seq<nat>, limit: nat)
    requires Increasing(s)
    ensures Increasing(LastN(s, limit))
    ensures forall n :: n in LastN(s, limit) ==> n in s
    ensures forall n, m :: n in s && n !in LastN(s, limit) && m in LastN(s, limit) ==> n < m
  {
    var r := LastN(s, limit);
    var d := |s| - |r|;
    forall k | d <= k < |s|
      ensures s[k] in r
    {
      assert r[k - d] == s[k];
    }
    forall n, m | n in s && n !in r && m in r
      ensures n < m
    {
      var i :| 0 <= i < |s| && s[i] == n;
      var j :| 0 <= j < |r| && r[j] == m;
    }
  }

  /** A jump keeps every key it stores itself: only older keys are evicted, and only the oldest of them. */
  lemma JumpEvictsOldestOnly(first: nat, w: Window, c: nat)
    requires Tidy(first, w) && w.index <= c && c - w.index <= MAX_MESSAGE_KEYS
    ensures Take(w, c).Accepted? && Take(w, c).window.index == c + 1
    ensures Increasing(Take(w, c).window.stored)
    ensures forall n :: n in Take(w, c).window.stored ==> n in w.stored || w.index <= n < c
    ensures forall n :: w.index <= n < c ==> n in Take(w, c).window.stored
    ensures forall n :: n in Evicts(w, c) <==> n in w.stored && n !in Take(w, c).window.stored
    ensures forall n, m :: n in Evicts(w, c) && m in Take(w, c).window.stored ==> n < m
  {
    var all := w.stored + Range(w.index, c);
    var kept := LastN(all, MAX_MESSAGE_KEYS);
    forall n | w.index <= n < c
      ensures n in kept
    {
      var i := |w.stored| + (n - w.index);
      assert all[i] == n;
      assert kept[i - (|all| - |kept|)] == n;
    }
    JumpIsIncreasing(first, w, c);
    TrimKeepsTheLargest(all, MAX_MESSAGE_KEYS);
  }

  lemma RemovalFromIncreasing(s: seq<nat>, c: nat)
    requires Increasing(s) && c in s
    ensures Increasing(RemoveAt(s, Position(s, c)))
    ensures forall n :: n in RemoveAt(s, Position(s, c)) <==> n in s && n != c
  {
    var p := Position(s, c);
    var r := RemoveAt(s, p);
    forall n | n in s && n != c
      ensures n in r
    {
      var i :| 0 <= i < |s| && s[i] == n;
      assert if i < p then r[i] == n else r[i - 1] == n;
    }
    forall n | n in r
      ensures n in s && n != c
    {
      var i :| 0 <= i < |r| && r[i] == n;
      assert if i < p then s[i] == n else s[i + 1] == n;
    }
  }

  /** Taking a key keeps the list tidy and the split of the counters exact, and is refused exactly for a
      counter already accounted for or too far ahead. */
  lemma TakeConserves(first: nat, w: Window, h: History, c: nat)
    requires Conserved(first, w, h) && first <= c
    ensures Take(w, c).Accepted? ==> Conserved(first, Take(w, c).window, After(h, w, c))
    ensures Take(w, c).Accepted? <==> c !in h.accepted && c !in h.evicted && c <= w.index + MAX_MESSAGE_KEYS
    ensures Take(w, c).Duplicate? <==> c in h.accepted || c in h.evicted
  {
    if c < w.index {
      if c in w.stored {
        RemovalConserves(first, w, h, c);
      }
    } else if c - w.index <= MAX_MESSAGE_KEYS {
      JumpEvictsOldestOnly(first, w, c);
      JumpConserves(first, w, h, c, Take(w, c).window.stored, Evicts(w, c));
    }
  }

  lemma RemovalConserves(first: nat, w: Window, h: History, c: nat)
    requires Conserved(first, w, h) && c in w.stored
    ensures Conserved(first, Take(w, c).window, After(h, w, c))
  {
    RemovalFromIncreasing(w.stored, c);
  }

  lemma JumpConserves(first: nat, w: Window, h: History, c: nat, kept: seq<nat>, gone: set<nat>)
    requires Conserved(first, w, h) && w.index <= c
    requires Increasing(kept) && |kept| <= MAX_MESSAGE_KEYS
    requires forall n :: n in kept ==> n in w.stored || w.index <= n < c
    requires forall n :: w.index <= n < c ==> n in kept
    requires forall n :: n in gone <==> n in w.stored && n !in kept
    requires forall n, m :: n in gone && m in kept ==> n < m
    ensures Conserved(first, Window(c + 1, kept), History(h.accepted + {c}, h.evicted + gone))
  {
  }

  /** A counter below the start of the window is always refused as a duplicate. */
  lemma BelowTheStartIsDuplicate(first: nat, w: Window, c: nat)
    requires Tidy(first, w) && c < first
    ensures Take(w, c) == Duplicate
  {
  }

  // ---- Delivery order ----

  /** Takes the counters one after the other; `None` as soon as one is refused. */
  function TakeAll(w: Window, h: History, cs: seq<nat>): Option<(Window, History)>
    decreases |cs|
  {
    if cs == [] then Some((w, h))
    else match Take(w, cs[0])
      case Accepted(w') => TakeAll(w', After(h, w, cs[0]), cs[1..])
      case _ => None
  }

  lemma {:induction false} TakeAllConserves(first: nat, w: Window, h: History, cs: seq<nat>)
    requires Conserved(first, w, h) && forall n :: n in cs ==> first <= n
    requires TakeAll(w, h, cs).Some?
    ensures Conserved(first, TakeAll(w, h, cs).value.0, TakeAll(w, h, cs).value.1)
    ensures TakeAll(w, h, cs).value.1.accepted == h.accepted + set n | n in cs
    decreases |cs|
  {
    if cs != [] {
      TakeConserves(first, w, h, cs[0]);
      assert forall n :: n in cs[1..] ==> n in cs;
      TakeAllConserves(first, Take(w, cs[0]).window, After(h, w, cs[0]), cs[1..]);
      assert (set n | n in cs) == {cs[0]} + set n | n in cs[1..];
    } else {
      assert (set n: nat | n in cs) == {};
    }
  }

  /** An increasing sequence is determined by its elements. */
  lemma {:induction false} IncreasingIsCanonical(s: seq<nat>, t: seq<nat>)
    requires Increasing(s) && Increasing(t)
    requires forall n :: n in s <==> n in t
    ensures s == t
  {
    if s != [] {
      assert s[0] in t;
    }
    if t != [] {
      assert t[0] in s;
    }
    if s != [] {
      var i :| 0 <= i < |t| && t[i] == s[0];
      var j :| 0 <= j < |s| && s[j] == t[0];
      forall n
        ensures n in s[1..] <==> n in t[1..]
      {
        if n in s[1..] {
          assert n in t;
        }
        if n in t[1..] {
          assert n in s;
        }
      }
      IncreasingIsCanonical(s[1..], t[1..]);
      assert s == [s[0]] + s[1..];
    }
  }

  /** Without evictions the accepted counters determine the window. */
  lemma AcceptedDetermineWindow(first: nat, w: Window, v: Window, accepted: set<nat>)
    requires Conserved(first, w, History(accepted, {})) && Conserved(first, v, History(accepted, {}))
    ensures w == v
  {
    assert w.index == v.index by {
      assert w.index > first ==> w.index - 1 in accepted;
      assert v.index > first ==> v.index - 1 in accepted;
    }
    assert forall n :: n in w.stored <==> first <= n < w.index && n !in accepted;
    assert forall n :: n in v.stored <==> first <= n < v.index && n !in accepted;
    IncreasingIsCanonical(w.stored, v.stored);
  }

  /** Two delivery orders of the same messages, neither of them evicting a key, end in the same window. */
  lemma OrderDoesNotMatter(first: nat, xs: seq<nat>, ys: seq<nat>)
    requires forall n :: n in xs <==> n in ys
    requires forall n :: n in xs ==> first <= n
    requires TakeAll(Window(first, []), NOTHING, xs).Some? && TakeAll(Window(first, []), NOTHING, ys).Some?
    requires TakeAll(Window(first, []), NOTHING, xs).value.1.evicted == {}
    requires TakeAll(Window(first, []), NOTHING, ys).value.1.evicted == {}
    ensures TakeAll(Window(first, []), NOTHING, xs).value.0 == TakeAll(Window(first, []), NOTHING, ys).value.0
  {
    hide TakeAll, Tidy;
    TakeAllConserves(first, Window(first, []), NOTHING, xs);
    TakeAllConserves(first, Window(first, []), NOTHING, ys);
    assert (set n | n in xs) == (set n | n in ys);
    AcceptedDetermineWindow(first, TakeAll(Window(first, []), NOTHING, xs).value.0,
                            TakeAll(Window(first, []), NOTHING, ys).value.0, set n | n in xs);
  }
}
