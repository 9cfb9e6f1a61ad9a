/**
 * `DownloadTask`: a mutable record describing one download (source URL, sink,
 * listeners, timeout, credentials) with the `paused` and `cancelled` flags a
 * controller sets while the transfer runs. Every setter returns the task itself.
 */
module Tasks {
  import opened Wrappers
  import opened Net
  import opened Listeners
  import Authentication

  /** The identity of a `java.io.OutputStream` object. */
  type StreamId = nat

  const DEFAULT_TIMEOUT: int := 15000

  /** The state of a task, field by field. */
  datatype TaskView = TaskView(
    url: Url,
    outputStream: StreamId,
    listeners: seq<Listener>,
    paused: bool,
    cancelled: bool,
    timeout: int,
    authentication: Option<Authentication.IssuedAuthentication>)

  /** The index of the first occurrence of `x` in `s`. */
  function FirstIndex<T(==)>(s: seq<T>, x: T): (i: nat)
    requires x in s
    ensures i < |s| && s[i] == x && x !in s[..i]
  {
    if s[0] == x then 0
    else
      var j := FirstIndex(s[1..], x);
      assert s[..j + 1] == [s[0]] + s[1..][..j];
      j + 1
  }

  /** `List.remove(Object)`: drop the first occurrence of `x`, if any, and keep the rest in order. */
  function RemoveFirst<T(==)>(s: seq<T>, x: T): (r: seq<T>)
    ensures x !in s ==> r == s
    ensures x in s ==> r == s[..FirstIndex(s, x)] + s[FirstIndex(s, x) + 1..]
  {
    if s == [] then []
    else if s[0] == x then s[1..]
    else
      var r := [s[0]] + RemoveFirst(s[1..], x);
      assert x in s ==> s[..FirstIndex(s, x)] == [s[0]] + s[1..][..FirstIndex(s[1..], x)];
      r
  }

  /** Removing takes away exactly one copy of `x` when there is one, and nothing else. */
  lemma {:induction false} RemoveFirstMultiset<T>(s: seq<T>, x: T)
    ensures x in s ==> multiset(RemoveFirst(s, x)) == multiset(s) - multiset{x}
    ensures x !in s ==> multiset(RemoveFirst(s, x)) == multiset(s)
  {
    if x in s {
      var i := FirstIndex(s, x);
      var front, back := s[..i], s[i + 1..];
      assert s == front + [x] + back;
      MultisetWithout(front, x, back);
    }
  }

  lemma {:induction false} MultisetWithout<T>(front: seq<T>, x: T, back: seq<T>)
    ensures multiset(front + [x] + back) - multiset{x} == multiset(front + back)
  {
    assert multiset(front + [x] + back) == multiset(front) + multiset{x} + multiset(back);
    assert multiset(front + back) == multiset(front) + multiset(back);
  }

  /** Removing a listener that was just added, and was not there before, restores the list. */
  lemma {:induction false} RemoveUndoesAdd<T>(s: seq<T>, x: T)
    requires x !in s
    ensures RemoveFirst(s + [x], x) == s
  {
    assert FirstIndex(s + [x], x) == |s|;
    assert (s + [x])[..|s|] == s;
  }

  class DownloadTask {
    var url: Url
    var outputStream: StreamId
    /**
     * The listener list, changed here only through the task's own methods.
     * (`getListeners()` hands out the live list, which a `seq` value cannot alias.)
     */
    var listeners: seq<Listener>
    var paused: bool
    var cancelled: bool
    var timeout: int
    var authentication: Option<Authentication.IssuedAuthentication>

    function View(): TaskView
      reads this
    {
      TaskView(url, outputStream, listeners, paused, cancelled, timeout, authentication)
    }

    /** `new DownloadTask(url, outputStream)`: no listeners, not paused, not cancelled, 15 s timeout, no credentials. */
    constructor (url: Url, outputStream: StreamId)
      ensures View() == TaskView(url, outputStream, [], false, false, DEFAULT_TIMEOUT, None)
    {
      this.url := url;
      this.outputStream := outputStream;
      this.listeners := [];
      this.paused := false;
      this.cancelled := false;
      this.timeout := DEFAULT_TIMEOUT;
      this.authentication := None;
    }

    /** `new DownloadTask(url, outputStream, listener)`: as above, with exactly that one listener. */
    constructor WithListener(url: Url, outputStream: StreamId, listener: Listener)
      ensures View() == TaskView(url, outputStream, [listener], false, false, DEFAULT_TIMEOUT, None)
    {
      this.url := url;
      this.outputStream := outputStream;
      this.listeners := [listener];
      this.paused := false;
      this.cancelled := false;
      this.timeout := DEFAULT_TIMEOUT;
      this.authentication := None;
    }

    method SetUrl(url: Url) returns (self: DownloadTask)
      modifies this
      ensures self == this
      ensures View() == old(View()).(url := url)
    {
      this.url := url;
      self := this;
    }

    method SetOutputStream(outputStream: StreamId) returns (self: DownloadTask)
      modifies this
      ensures self == this
      ensures View() == old(View()).(outputStream := outputStream)
    {
      this.outputStream := outputStream;
      self := this;
    }

    /** Appends at the end; earlier listeners keep their places. */
    method AddListener(listener: Listener) returns (self: DownloadTask)
      modifies this
      ensures self == this
      ensures View() == old(View()).(listeners := old(listeners) + [listener])
    {
      listeners := listeners + [listener];
      self := this;
    }

    /** Removes the first occurrence only; the list is unchanged when the listener is absent. */
    method RemoveListener(listener: Listener) returns (self: DownloadTask)
      modifies this
      ensures self == this
      ensures View() == old(View()).(listeners := RemoveFirst(old(listeners), listener))
    {
      listeners := RemoveFirst(listeners, listener);
      self := this;
    }

    method RemoveAllListener() returns (self: DownloadTask)
      modifies this
      ensures self == this
      ensures View() == old(View()).(listeners := [])
    {
      listeners := [];
      self := this;
    }

    method SetPaused(paused: bool) returns (self: DownloadTask)
      modifies this
      ensures self == this
      ensures View() == old(View()).(paused := paused)
    {
      this.paused := paused;
      self := this;
    }

    method SetCancelled(cancelled: bool) returns (self: DownloadTask)
      modifies this
      ensures self == this
      ensures View() == old(View()).(cancelled := cancelled)
    {
      this.cancelled := cancelled;
      self := this;
    }

    method SetTimeout(timeout: int) returns (self: DownloadTask)
      modifies this
      ensures self == this
      ensures View() == old(View()).(timeout := timeout)
    {
      this.timeout := timeout;
      self := this;
    }

    method SetAuthentication(authentication: Option<Authentication.IssuedAuthentication>) returns (self: DownloadTask)
      modifies this
      ensures self == this
      ensures View() == old(View()).(authentication := authentication)
    {
      this.authentication := authentication;
      self := this;
    }
  }

  /** The flag setters are plain assignments: setting the same value twice is setting it once. */
  method SetFlagsTwice(dt: DownloadTask, paused: bool, cancelled: bool)
    modifies dt
    ensures dt.View() == old(dt.View()).(paused := paused, cancelled := cancelled)
  {
    var t := dt.SetPaused(paused);
    t := t.SetPaused(paused);
    t := t.SetCancelled(cancelled);
    t := t.SetCancelled(cancelled);
  }
}
