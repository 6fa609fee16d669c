/** The client-side rotation of `components/background-video.tsx`: the list
    of active videos it adopts once, the index of the video on show, the
    step taken on every tick of the 30-second timer, and which video is
    visible. Fetching, timing and rendering are not modelled. */
module BackgroundRotation {
  import opened Common
  import opened Videos
  import opened Arithmetic

  /** One rotation step over `n` videos. */
  function NextIndex(prev: nat, n: nat): (r: nat)
    requires n > 0
    ensures r < n
    ensures prev + 1 < n ==> r == prev + 1
    ensures prev + 1 == n ==> r == 0
  {
    (prev + 1) % n
  }

  /** The index after `k` steps from the first video. */
  function IndexAfter(n: nat, k: nat): (r: nat)
    requires n > 0
    ensures r < n
  {
    if k == 0 then 0 else NextIndex(IndexAfter(n, k - 1), n)
  }

  /** After `k` ticks the video on show is number `k mod n`: every video gets
      its turn, in order, and the rotation wraps around. */
  lemma {:induction false} IndexAfterIsModulo(n: nat, k: nat)
    requires n > 0
    ensures IndexAfter(n, k) == k % n
  {
    if k > 0 {
      IndexAfterIsModulo(n, k - 1);
      var q, r := (k - 1) / n, (k - 1) % n;
      if r + 1 == n {
        DivMod(k, n, q + 1, 0);
      } else {
        DivMod(k, n, q, r + 1);
      }
    }
  }

  class Rotation {
    var videos: seq<VideoSummary>
    var currentIndex: nat
    /** The number of rotation steps taken so far. */
    ghost var ticks: nat

    /** The index is always that of a video (or 0 with none), and it is the
        index reached after `ticks` steps. */
    ghost predicate Valid()
      reads this
    {
      && (videos == [] ==> currentIndex == 0 && ticks == 0)
      && (videos != [] ==> currentIndex == IndexAfter(|videos|, ticks))
    }

    /** The component as first mounted: no videos, index 0. */
    constructor ()
      ensures Valid() && videos == [] && currentIndex == 0
    {
      videos, currentIndex, ticks := [], 0, 0;
    }

    /** The end of the one fetch made on mount: the list is adopted only if
        it arrived and is non-empty; the index stays at 0. */
    method OnFetched(fetched: Option<seq<VideoSummary>>)
      requires Valid() && videos == []
      modifies this
      ensures Valid() && currentIndex == 0
      ensures videos == (if fetched.Some? && fetched.value != [] then fetched.value else [])
    {
      if fetched.Some? && |fetched.value| > 0 {
        videos := fetched.value;
      }
    }

    /** One tick of the timer. With one video or none no timer runs, so
        nothing changes; otherwise the index moves to the next video,
        wrapping to the first after the last. */
    method Tick()
      requires Valid()
      modifies this
      ensures Valid() && videos == old(videos)
      ensures |videos| <= 1 ==> currentIndex == old(currentIndex)
      ensures |videos| > 1 ==> currentIndex == NextIndex(old(currentIndex), |videos|)
      ensures |videos| > 1 ==> currentIndex == ticks % |videos|
    {
      if |videos| <= 1 {
        return;
      }
      currentIndex := NextIndex(currentIndex, |videos|);
      ticks := ticks + 1;
      IndexAfterIsModulo(|videos|, ticks);
    }

    /** What is rendered: nothing with no videos; otherwise one opacity per
        video, the configured one for the video on show and 0 for all others. */
    function Opacities(): (r: Option<seq<real>>)
      requires Valid()
      reads this
      ensures r.None? <==> videos == []
      ensures r.Some? ==> |r.value| == |videos| && currentIndex < |videos|
      ensures r.Some? ==> r.value[currentIndex] == videos[currentIndex].opacity
      ensures r.Some? ==> forall i :: 0 <= i < |videos| && i != currentIndex ==> r.value[i] == 0.0
    {
      if videos == [] then None
      else Some(seq(|videos|, i requires 0 <= i < |videos| reads this =>
                                if i == currentIndex then videos[i].opacity else 0.0))
    }
  }
}
