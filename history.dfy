/** The recent-alerts list: every new alert goes to the front and the list keeps
    at most ten entries, newest first (the `[alertData, ...prev.slice(0, 9)]`
    state updater). */
module RecentAlerts {

  /** How many alerts the list keeps. */
  const Capacity: nat := 10

  function Min(a: int, b: int): int
  {
    if a <= b then a else b
  }

  /** The first `Capacity` entries of `s` (all of it when it is shorter). */
  function Newest<T>(s: seq<T>): (r: seq<T>)
    ensures |r| == Min(|s|, Capacity) && r == s[..|r|]
  {
    if |s| <= Capacity then s else s[..Capacity]
  }

  /** The list after one more alert: the alert first, then at most the nine
      newest entries of the previous list in their order. */
  function PushRecent<T>(prev: seq<T>, a: T): (r: seq<T>)
    ensures |r| == Min(|prev| + 1, Capacity)
    ensures r[0] == a
    ensures r[1..] == prev[..Min(|prev|, Capacity - 1)]
  {
    [a] + prev[..Min(|prev|, Capacity - 1)]
  }

  /** The list after alerts `xs` arrive one after the other, starting from `h`. */
  function PushAll<T>(h: seq<T>, xs: seq<T>): seq<T>
    decreases |xs|
  {
    if xs == [] then h else PushAll(PushRecent(h, xs[0]), xs[1..])
  }

  function Reverse<T>(s: seq<T>): (r: seq<T>)
    ensures |r| == |s|
    ensures forall i :: 0 <= i < |s| ==> r[i] == s[|s| - 1 - i]
  {
    if s == [] then [] else Reverse(s[1..]) + [s[0]]
  }

  /** Pushing onto a full list drops exactly its last (oldest) entry. */
  lemma PushFullDropsOldest<T>(prev: seq<T>, a: T)
    requires |prev| == Capacity
    ensures |PushRecent(prev, a)| == Capacity
    ensures PushRecent(prev, a) + [prev[Capacity - 1]] == [a] + prev
  {
  }

  /** Pushing onto a list that is not full loses nothing. */
  lemma PushNotFullKeepsAll<T>(prev: seq<T>, a: T)
    requires |prev| < Capacity
    ensures PushRecent(prev, a) == [a] + prev
  {
  }

  /** Truncating before or after the push gives the same list: the updater
      only ever looks at the newest nine entries of what it is given. */
  lemma PushOfNewest<T>(s: seq<T>, a: T)
    ensures PushRecent(Newest(s), a) == Newest([a] + s)
  {
  }

  /** The list after any run of pushes onto a list of at most ten alerts is the
      ten newest of everything seen: the pushed alerts latest first, then the
      original list. */
  lemma {:induction false} PushAllIsNewestWindow<T>(h: seq<T>, xs: seq<T>)
    requires |h| <= Capacity
    ensures PushAll(h, xs) == Newest(Reverse(xs) + h)
    decreases |xs|
  {
    if xs == [] {
      assert Reverse(xs) + h == h;
    } else {
      var h' := PushRecent(h, xs[0]);
      PushAllIsNewestWindow(h', xs[1..]);
      PushOfNewest(h, xs[0]);
      assert Newest(h) == h;
      assert h' == Newest([xs[0]] + h);
      NewestOfNewest(Reverse(xs[1..]), [xs[0]] + h);
      assert Reverse(xs) == Reverse(xs[1..]) + [xs[0]];
      assert Reverse(xs[1..]) + ([xs[0]] + h) == Reverse(xs) + h;
    }
  }

  /** Truncating the tail of a list before taking its newest entries changes nothing. */
  lemma NewestOfNewest<T>(p: seq<T>, s: seq<T>)
    ensures Newest(p + Newest(s)) == Newest(p + s)
  {
  }

  /** The list never grows beyond its capacity once it is within it. */
  lemma {:induction false} PushAllBounded<T>(h: seq<T>, xs: seq<T>)
    requires |h| <= Capacity
    ensures |PushAll(h, xs)| <= Capacity
    ensures xs != [] ==> |PushAll(h, xs)| > 0 && PushAll(h, xs)[0] == xs[|xs| - 1]
  {
    PushAllIsNewestWindow(h, xs);
  }

  /** After eleven alerts arrive on an empty list, the first is gone and the
      other ten are kept, newest first. */
  lemma {:induction false} ElevenPushesForgetTheFirst<T>(xs: seq<T>)
    requires |xs| == Capacity + 1
    ensures PushAll([], xs) == Reverse(xs[1..])
  {
    PushAllIsNewestWindow([], xs);
    assert Reverse(xs) + [] == Reverse(xs);
    var l := PushAll([], xs);
    assert |l| == Capacity;
    forall i | 0 <= i < Capacity
      ensures l[i] == Reverse(xs[1..])[i]
    {
    }
  }
}
