/**
 The bounded console queue of guest/stage1/main_output_pump.h.

 `Console` is the queue's meaning: which bytes wait, in which order, and who
 produced each of them.  `ConsoleQueue` is the in-place array the program keeps;
 every method is proved equal to a function on that meaning.
 */
module ConsoleQueues {
  import opened Bytes

  const QUEUE_BYTES := 16384
  const QUANTUM := 1024

  /** Who handed a byte to the console queue. */
  datatype Source = Output(stream: nat) | Diagnostic

  datatype Tagged = Tagged(source: Source, value: byte)

  function Tag(source: Source, bytes: seq<byte>): (r: seq<Tagged>)
    ensures |r| == |bytes|
  {
    seq(|bytes|, i requires 0 <= i < |bytes| => Tagged(source, bytes[i]))
  }

  function Untag(tagged: seq<Tagged>): (r: seq<byte>)
    ensures |r| == |tagged|
  {
    seq(|tagged|, i requires 0 <= i < |tagged| => tagged[i].value)
  }

  /** The bytes of one producer, in the order in which they appear. */
  function From(tagged: seq<Tagged>, source: Source): seq<byte> {
    if tagged == [] then []
    else (if tagged[0].source == source then [tagged[0].value] else []) + From(tagged[1..], source)
  }

  lemma {:induction false} FromAppend(a: seq<Tagged>, b: seq<Tagged>, source: Source)
    ensures From(a + b, source) == From(a, source) + From(b, source)
  {
    if a == [] {
      assert a + b == b;
    } else {
      var tail := a[1..];
      assert (a + b)[1..] == tail + b;
      FromAppend(tail, b, source);
      var head := if a[0].source == source then [a[0].value] else [];
      Associative(head, From(tail, source), From(b, source));
    }
  }

  lemma {:induction false} FromTag(bytes: seq<byte>, source: Source, wanted: Source)
    ensures From(Tag(source, bytes), wanted) == if source == wanted then bytes else []
  {
    if bytes == [] {
    } else {
      assert Tag(source, bytes)[1..] == Tag(source, bytes[1..]);
      FromTag(bytes[1..], source, wanted);
      assert bytes == [bytes[0]] + bytes[1..];
    }
  }

  lemma UntagAppend(a: seq<Tagged>, b: seq<Tagged>)
    ensures Untag(a + b) == Untag(a) + Untag(b)
  {
  }

  lemma UntagSplit(a: seq<Tagged>, n: nat)
    requires n <= |a|
    ensures Untag(a[..n]) == Untag(a)[..n] && Untag(a[n..]) == Untag(a)[n..]
  {
  }

  lemma UntagTag(bytes: seq<byte>, source: Source)
    ensures Untag(Tag(source, bytes)) == bytes
  {
    assert forall i | 0 <= i < |bytes| :: Untag(Tag(source, bytes))[i] == bytes[i];
  }

  /** `inBounds` is false only for a queue whose indices were corrupted. */
  datatype Console = Console(inBounds: bool, queued: seq<Tagged>, failed: bool) {
    predicate Usable() {
      !failed && inBounds
    }
  }

  function Fail(c: Console): Console {
    c.(failed := true)
  }

  /** Workload data: refused without poisoning when there is no room. */
  function DataEnqueued(c: Console, chunk: seq<Tagged>): (Console, bool) {
    if c.failed then (c, false)
    else if !c.inBounds then (Fail(c), false)
    else if |chunk| > QUEUE_BYTES - |c.queued| then (c, false)
    else (c.(queued := c.queued + chunk), true)
  }

  /** Supervisor diagnostics: an overflow is a sticky failure. */
  function DiagnosticEnqueued(c: Console, chunk: seq<Tagged>): (Console, bool) {
    var (next, ok) := DataEnqueued(c, chunk);
    if c.failed || ok then (next, ok) else (Fail(next), false)
  }

  /** The bytes that one flush offers to the sink. */
  function Offered(c: Console): seq<Tagged> {
    c.queued[..Min(|c.queued|, QUANTUM)]
  }

  predicate Transient(count: int) {
    count == -EAGAIN || count == -EINTR
  }

  /** One flush against a sink that answers `count`; the second part is what the sink took. */
  function Flushed(c: Console, count: int): (Console, seq<Tagged>, bool) {
    if !c.Usable() then (Fail(c), [], false)
    else if c.queued == [] then (c, [], true)
    else if Transient(count) then (c, [], true)
    else if count <= 0 || count > |Offered(c)| then (Fail(c), [], false)
    else (c.(queued := c.queued[count..]), c.queued[..count], true)
  }

  class ConsoleQueue {
    const bytes: array<byte>
    var offset: nat
    var used: nat
    var failed: bool
    /** What the array segment between `offset` and `used` means. */
    ghost var queued: seq<Tagged>

    ghost predicate InBounds()
      reads this
    {
      offset <= used <= QUEUE_BYTES
    }

    ghost predicate Valid()
      reads this, bytes
    {
      && bytes.Length == QUEUE_BYTES
      && (InBounds() ==> Untag(queued) == bytes[offset..used])
    }

    ghost function View(): Console
      reads this, bytes
      requires Valid()
    {
      Console(InBounds(), if InBounds() then queued else [], failed)
    }

    constructor ()
      ensures Valid() && fresh(bytes)
      ensures View() == Console(true, [], false)
    {
      bytes := new byte[QUEUE_BYTES](_ => 0);
      offset, used, failed := 0, 0, false;
      queued := [];
    }

    /** Moves the waiting bytes to the front of the array, left to right over an overlap. */
    method Compact()
      requires Valid() && InBounds()
      modifies this, bytes
      ensures Valid() && View() == old(View())
      ensures offset == 0 && used == old(used - offset) && queued == old(queued) && failed == old(failed)
    {
      var remaining := used - offset;
      var i := 0;
      while i < remaining
        invariant 0 <= i <= remaining
        invariant forall k | 0 <= k < i :: bytes[k] == old(bytes[offset + k])
        invariant forall k | offset + i <= k < bytes.Length :: bytes[k] == old(bytes[k])
        invariant offset == old(offset) && used == old(used) && failed == old(failed) && queued == old(queued)
      {
        bytes[i] := bytes[offset + i];
        i := i + 1;
      }
      assert bytes[..remaining] == old(bytes[offset..used]);
      offset, used := 0, remaining;
    }

    /** Queues `source[start..start + size]`; a null source stands for NULL. */
    method EnqueueData(source: array?<byte>, start: nat, size: nat, ghost producer: Source) returns (ok: bool)
      requires Valid()
      requires source != null ==> source != bytes && start + size <= source.Length
      modifies this, bytes
      ensures Valid()
      ensures source != null ==>
                (View(), ok) == DataEnqueued(old(View()), Tag(producer, old(source[start..start + size])))
      ensures source == null && size == 0 ==> (View(), ok) == DataEnqueued(old(View()), [])
      ensures source == null && size > 0 ==> View() == Fail(old(View())) && !ok
    {
      if failed {
        return false;
      }
      if offset > used || used > QUEUE_BYTES || (source == null && size != 0) {
        failed := true;
        return false;
      }
      assert |queued| == |bytes[offset..used]|;
      var remaining := used - offset;
      if size > QUEUE_BYTES - remaining {
        return false;
      }
      if offset != 0 {
        Compact();
      }
      if source != null {
        Append(source, start, size, producer);
      } else {
        assert queued + [] == queued;
      }
      return true;
    }

    /** Copies the new bytes behind the waiting ones, which start the array. */
    method Append(source: array<byte>, start: nat, size: nat, ghost producer: Source)
      requires Valid() && InBounds() && offset == 0 && source != bytes
      requires start + size <= source.Length && used + size <= QUEUE_BYTES
      modifies this, bytes
      ensures Valid() && View() == old(View()).(queued := old(queued) + Tag(producer, old(source[start..start + size])))
    {
      ghost var added := source[start..start + size];
      var i := 0;
      while i < size
        invariant 0 <= i <= size
        invariant offset == 0 && used == old(used) && failed == old(failed) && queued == old(queued)
        invariant bytes[..used] == old(bytes[..used])
        invariant forall k | used <= k < used + i :: bytes[k] == added[k - used]
      {
        assert source[start + i] == added[i];
        bytes[used + i] := source[start + i];
        i := i + 1;
      }
      UntagTag(added, producer);
      assert bytes[used..used + size] == added;
      assert bytes[..used + size] == bytes[..used] + bytes[used..used + size];
      UntagAppend(queued, Tag(producer, added));
      used, queued := used + size, queued + Tag(producer, added);
      assert bytes[0..used] == bytes[..used];
    }

    method EnqueueDiagnostic(source: array?<byte>, start: nat, size: nat) returns (ok: bool)
      requires Valid()
      requires source != null ==> source != bytes && start + size <= source.Length
      modifies this, bytes
      ensures Valid()
      ensures source != null ==>
                (View(), ok) == DiagnosticEnqueued(old(View()), Tag(Diagnostic, old(source[start..start + size])))
      ensures source == null && size == 0 ==> (View(), ok) == DiagnosticEnqueued(old(View()), [])
      ensures source == null && size > 0 ==> View() == Fail(old(View())) && !ok
    {
      if failed {
        return false;
      }
      ok := EnqueueData(source, start, size, Diagnostic);
      if !ok {
        failed := true;
      }
    }

    /** At most one write of at most one quantum; `taken` is what the sink received. */
    method FlushTick(count: int) returns (ok: bool, taken: seq<byte>)
      requires Valid()
      modifies this
      ensures Valid()
      ensures var (next, bytesOut, success) := Flushed(old(View()), count);
              View() == next && taken == Untag(bytesOut) && ok == success
    {
      taken := [];
      if failed || offset > used || used > QUEUE_BYTES {
        failed := true;
        return false, taken;
      }
      assert |queued| == |bytes[offset..used]|;
      if offset == used {
        offset, used := 0, 0;
        return true, taken;
      }
      var available := used - offset;
      if available > QUANTUM {
        available := QUANTUM;
      }
      if count == -EAGAIN || count == -EINTR {
        return true, taken;
      }
      if count <= 0 || count > available {
        failed := true;
        return false, taken;
      }
      taken := bytes[offset..offset + count];
      ghost var all := bytes[offset..used];
      UntagSplit(queued, count);
      assert taken == all[..count] && bytes[offset + count..used] == all[count..];
      queued := queued[count..];
      offset := offset + count;
      if offset == used {
        offset, used := 0, 0;
      }
      return true, taken;
    }
  }
}
