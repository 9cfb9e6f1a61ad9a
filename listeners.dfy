/**
 * The `DownloadListener` callbacks as an event alphabet, and the sequences of
 * calls the downloader makes on a task's listener list.
 */
module Listeners {
  import opened Chunks

  /**
   * A `DownloadListener` up to `equals`: `ArrayList.remove(Object)` drops the
   * first element equal to its argument, so two listeners that are `equals`
   * are the same `Listener` here.
   */
  type Listener = nat

  /** `onStart(fname, fsize)`, `onUpdate(bytes, totalDownloaded)` and `onComplete()`. */
  datatype Event =
    | OnStart(fname: string, fsize: int)
    | OnUpdate(bytes: int, totalDownloaded: int)
    | OnComplete

  /** One callback made on one listener. */
  datatype Call = Call(listener: Listener, event: Event)

  /** `for (DownloadListener l : ls) l.<event>`: one call per listener, in list order. */
  function Broadcast(ls: seq<Listener>, e: Event): (r: seq<Call>)
    ensures |r| == |ls|
    ensures forall i :: 0 <= i < |ls| ==> r[i] == Call(ls[i], e)
  {
    if ls == [] then [] else Broadcast(ls[..|ls| - 1], e) + [Call(ls[|ls| - 1], e)]
  }

  /**
   * The `onUpdate` calls for reading `cs`, when `base` bytes were read before:
   * chunk `c` is announced to every listener with its size and the running
   * total as a Java `int` holds it.
   */
  function Updates(ls: seq<Listener>, cs: seq<seq<Byte>>, base: int): seq<Call>
  {
    if cs == [] then []
    else
      var last := cs[|cs| - 1];
      Updates(ls, cs[..|cs| - 1], base) + Broadcast(ls, OnUpdate(|last|, Wrap32(base + TotalLength(cs))))
  }

  /** The updates for a non-empty run of chunks end with the update for its last chunk. */
  lemma UpdatesSnoc(ls: seq<Listener>, cs: seq<seq<Byte>>, base: int)
    requires |cs| > 0
    ensures Updates(ls, cs, base)
         == Updates(ls, cs[..|cs| - 1], base) + Broadcast(ls, OnUpdate(|cs[|cs| - 1]|, Wrap32(base + TotalLength(cs))))
  {
  }

  /** What a listener that is on the list once sees of the updates for `cs`. */
  function Progress(cs: seq<seq<Byte>>, base: int): seq<Event>
  {
    if cs == [] then []
    else
      var last := cs[|cs| - 1];
      Progress(cs[..|cs| - 1], base) + [OnUpdate(|last|, Wrap32(base + TotalLength(cs)))]
  }

  /** The calls of one whole transfer: starts, one round of updates per chunk, and completes when it ends normally. */
  function TransferCalls(ls: seq<Listener>, fname: string, fsize: int, cs: seq<seq<Byte>>, completed: bool): seq<Call>
  {
    Broadcast(ls, OnStart(fname, fsize)) + Updates(ls, cs, 0) + (if completed then Broadcast(ls, OnComplete) else [])
  }

  /** The events listener `l` received, in the order it received them. */
  function Received(log: seq<Call>, l: Listener): (r: seq<Event>)
    ensures |r| <= |log|
  {
    if log == [] then []
    else Received(log[..|log| - 1], l) + (if log[|log| - 1].listener == l then [log[|log| - 1].event] else [])
  }

  /** How often `l` is on the list. */
  function Count(ls: seq<Listener>, l: Listener): nat
  {
    if ls == [] then 0 else Count(ls[..|ls| - 1], l) + (if ls[|ls| - 1] == l then 1 else 0)
  }

  /** The sum of the `bytes` arguments of the updates among `es`. */
  function BytesAnnounced(es: seq<Event>): int
  {
    if es == [] then 0
    else BytesAnnounced(es[..|es| - 1]) + (if es[|es| - 1].OnUpdate? then es[|es| - 1].bytes else 0)
  }

  lemma {:induction false} ReceivedAppend(a: seq<Call>, b: seq<Call>, l: Listener)
    ensures Received(a + b, l) == Received(a, l) + Received(b, l)
  {
    if b == [] {
      assert a + b == a;
    } else {
      assert (a + b)[..|a + b| - 1] == a + b[..|b| - 1];
      ReceivedAppend(a, b[..|b| - 1], l);
    }
  }

  /** A listener on the list once hears each broadcast exactly once; one not on the list hears nothing. */
  lemma {:induction false} ReceivedBroadcast(ls: seq<Listener>, e: Event, l: Listener)
    ensures Count(ls, l) == 0 ==> Received(Broadcast(ls, e), l) == []
    ensures Count(ls, l) == 1 ==> Received(Broadcast(ls, e), l) == [e]
  {
    if ls != [] {
      var p := ls[..|ls| - 1];
      ReceivedBroadcast(p, e, l);
      assert Broadcast(ls, e)[..|ls| - 1] == Broadcast(p, e);
    }
  }

  /** A listener on the list once hears the updates of `cs` as `Progress(cs, base)`. */
  lemma {:induction false} ReceivedUpdates(ls: seq<Listener>, cs: seq<seq<Byte>>, base: int, l: Listener)
    requires Count(ls, l) == 1
    ensures Received(Updates(ls, cs, base), l) == Progress(cs, base)
  {
    if cs != [] {
      var p := cs[..|cs| - 1];
      var e := OnUpdate(|cs[|cs| - 1]|, Wrap32(base + TotalLength(cs)));
      ReceivedUpdates(ls, p, base, l);
      ReceivedAppend(Updates(ls, p, base), Broadcast(ls, e), l);
      ReceivedBroadcast(ls, e, l);
    }
  }

  /**
   * Each listener on the list once sees exactly one `onStart` first, then one
   * `onUpdate` per chunk, and a single `onComplete` last when the transfer ends normally.
   */
  lemma ListenerSeesOrderedEvents(ls: seq<Listener>, fname: string, fsize: int, cs: seq<seq<Byte>>, completed: bool, l: Listener)
    requires Count(ls, l) == 1
    ensures Received(TransferCalls(ls, fname, fsize, cs, completed), l)
         == [OnStart(fname, fsize)] + Progress(cs, 0) + (if completed then [OnComplete] else [])
  {
    var s := Broadcast(ls, OnStart(fname, fsize));
    var u := Updates(ls, cs, 0);
    var c := if completed then Broadcast(ls, OnComplete) else [];
    ReceivedAppend(s + u, c, l);
    ReceivedAppend(s, u, l);
    ReceivedBroadcast(ls, OnStart(fname, fsize), l);
    ReceivedUpdates(ls, cs, 0, l);
    if completed {
      ReceivedBroadcast(ls, OnComplete, l);
    }
  }

  /** Reading `a` and then `b` announces what reading `a + b` in one go announces. */
  lemma {:induction false} UpdatesAppend(ls: seq<Listener>, a: seq<seq<Byte>>, b: seq<seq<Byte>>, base: int)
    ensures Updates(ls, a + b, base) == Updates(ls, a, base) + Updates(ls, b, base + TotalLength(a))
  {
    if b == [] {
      assert a + b == a;
    } else {
      var b' := b[..|b| - 1];
      assert (a + b)[..|a + b| - 1] == a + b';
      assert (a + b)[|a + b| - 1] == b[|b| - 1];
      UpdatesAppend(ls, a, b', base);
      TotalLengthAppend(a, b);
    }
  }

  /** |Progress| is one event per chunk, and each is an update. */
  lemma {:induction false} ProgressShape(cs: seq<seq<Byte>>, base: int)
    ensures |Progress(cs, base)| == |cs|
    ensures forall i :: 0 <= i < |cs| ==> Progress(cs, base)[i].OnUpdate?
  {
    if cs != [] {
      ProgressShape(cs[..|cs| - 1], base);
    }
  }

  /**
   * The i-th update names the i-th chunk's size and the running total of the
   * first i+1 chunks, as a Java `int`.
   */
  lemma {:induction false} ProgressAt(cs: seq<seq<Byte>>, base: int, i: nat)
    requires i < |cs|
    ensures |Progress(cs, base)| == |cs|
    ensures Progress(cs, base)[i] == OnUpdate(|cs[i]|, Wrap32(base + TotalLength(cs[..i + 1])))
  {
    ProgressShape(cs, base);
    var p := cs[..|cs| - 1];
    if i < |cs| - 1 {
      ProgressAt(p, base, i);
      assert p[..i + 1] == cs[..i + 1];
    } else {
      assert cs[..i + 1] == cs;
      ProgressShape(p, base);
    }
  }

  /** The sizes announced add up to the bytes read. */
  lemma {:induction false} BytesAnnouncedIsTotal(cs: seq<seq<Byte>>, base: int)
    ensures BytesAnnounced(Progress(cs, base)) == TotalLength(cs)
  {
    if cs != [] {
      var p := cs[..|cs| - 1];
      BytesAnnouncedIsTotal(p, base);
      assert Progress(cs, base)[..|Progress(cs, base)| - 1] == Progress(p, base);
    }
  }

  /** While the bytes fit in an `int`, the i-th total is the exact running sum. */
  lemma ProgressTotalExactAt(cs: seq<seq<Byte>>, i: nat)
    requires i < |cs|
    requires TotalLength(cs) <= INT_MAX
    ensures |Progress(cs, 0)| == |cs|
    ensures Progress(cs, 0)[i] == OnUpdate(|cs[i]|, TotalLength(cs[..i + 1]))
  {
    ProgressAt(cs, 0, i);
    PrefixTotalBound(cs, i + 1);
    Wrap32Facts(0 + TotalLength(cs[..i + 1]));
  }

  /**
   * While the bytes fit in an `int`, the totals are the exact running sums:
   * they strictly increase, and the last one is the number of bytes read.
   */
  lemma ProgressTotalsExact(cs: seq<seq<Byte>>, limit: int)
    requires ChunksFit(cs, limit)
    requires TotalLength(cs) <= INT_MAX
    ensures |Progress(cs, 0)| == |cs|
    ensures forall i :: 0 <= i < |cs| ==> Progress(cs, 0)[i] == OnUpdate(|cs[i]|, TotalLength(cs[..i + 1]))
    ensures forall i, j :: 0 <= i < j < |cs| ==> Progress(cs, 0)[i].totalDownloaded < Progress(cs, 0)[j].totalDownloaded
    ensures cs != [] ==> Progress(cs, 0)[|cs| - 1].totalDownloaded == TotalLength(cs)
  {
    ProgressShape(cs, 0);
    var ps := Progress(cs, 0);
    forall i | 0 <= i < |cs|
      ensures ps[i] == OnUpdate(|cs[i]|, TotalLength(cs[..i + 1]))
    {
      ProgressTotalExactAt(cs, i);
    }
    forall i, j | 0 <= i < j < |cs|
      ensures ps[i].totalDownloaded < ps[j].totalDownloaded
    {
      ProgressTotalExactAt(cs, i);
      ProgressTotalExactAt(cs, j);
      PrefixTotalIncreasing(cs, limit, i + 1, j + 1);
    }
    if cs != [] {
      ProgressTotalExactAt(cs, |cs| - 1);
      assert cs[..|cs|] == cs;
    }
  }

  /**
   * What a listener on the list once hears of a whole transfer whose reads
   * each return 1 to `limit` bytes: `start` first, `onComplete` last, and
   * between them one update per chunk announcing 1 to `limit` bytes; while
   * the bytes fit in an `int`, the totals strictly increase and the last one
   * is the number of bytes read.
   */
  lemma {:induction false} TransferHeard(start: Event, cs: seq<seq<Byte>>, limit: int, es: seq<Event>)
    requires es == [start] + Progress(cs, 0) + [OnComplete]
    requires ChunksFit(cs, limit)
    ensures |es| == |cs| + 2 && es[0] == start && es[|cs| + 1] == OnComplete
    ensures forall i :: 1 <= i <= |cs| ==> es[i].OnUpdate? && 1 <= es[i].bytes <= limit
    ensures TotalLength(cs) <= INT_MAX ==>
              forall i, j :: 1 <= i < j <= |cs| ==> es[i].totalDownloaded < es[j].totalDownloaded
    ensures TotalLength(cs) <= INT_MAX && cs != [] ==> es[|cs|].totalDownloaded == TotalLength(cs)
  {
    var ps := Progress(cs, 0);
    ProgressShape(cs, 0);
    assert forall i :: 1 <= i <= |cs| ==> es[i] == ps[i - 1];
    forall i | 1 <= i <= |cs|
      ensures es[i].OnUpdate? && 1 <= es[i].bytes <= limit
    {
      ProgressAt(cs, 0, i - 1);
    }
    if TotalLength(cs) <= INT_MAX {
      ProgressTotalsExact(cs, limit);
    }
  }

  lemma PrefixTotalBound(cs: seq<seq<Byte>>, k: nat)
    requires k <= |cs|
    ensures TotalLength(cs[..k]) <= TotalLength(cs)
  {
    assert cs == cs[..k] + cs[k..];
    TotalLengthAppend(cs[..k], cs[k..]);
  }

  lemma PrefixTotalIncreasing(cs: seq<seq<Byte>>, limit: int, k: nat, m: nat)
    requires ChunksFit(cs, limit)
    requires k < m <= |cs|
    ensures TotalLength(cs[..k]) < TotalLength(cs[..m])
  {
    var mid := cs[k..m];
    assert cs[..m] == cs[..k] + mid;
    TotalLengthAppend(cs[..k], mid);
    assert ChunksFit(mid, limit) by {
      forall i | 0 <= i < |mid| ensures 1 <= |mid[i]| <= limit {
        assert mid[i] == cs[k + i];
      }
    }
    ChunkCountBound(mid, limit);
  }
}
