/**
 The growable double-ended octet buffer every packet and header lives in. One
 allocation is divided by four counters: free space usable only at the front (head),
 free space usable at either end (shared), free space usable only at the back (tail),
 and the octets in use, which start at offset `head`.
 */
module Buffers {
  import opened Octets

  lemma SlicePrefix(a: array<byte>, lo: nat, n: nat, m: nat)
    requires n <= m && lo + m <= a.Length
    ensures a[lo..lo + m][..n] == a[lo..lo + n]
  {
  }

  /** How a cut of `surplus` octets is shared out among four parts, one after the other. */
  lemma CutShared(shared: nat, tail: nat, head: nat, used: nat, surplus: nat)
    requires surplus <= shared + tail + head + used
    ensures var rest := Monus(surplus, shared);
            var rest' := Monus(rest, tail);
            var rest'' := Monus(rest', head);
            var left := shared + tail + head + used - surplus;
            && Monus(shared, surplus) + Monus(tail, rest) + Monus(head, rest') + Monus(used, rest'') == left
            && Monus(used, rest'') == Min(used, left) && rest' == Monus(surplus, shared + tail)
            && Monus(used, rest'') <= used && Monus(head, rest') <= head
  {
  }

  class DataBuffer {
    var buffer: array<byte>
    var data: nat     // offset of the first octet in use
    var head: nat
    var shared: nat
    var tail: nat
    var used: nat

    /** The counters add up to the allocation, and `data` sits at the head offset. */
    predicate Valid()
      reads this
    {
      data == head && head + shared + tail + used == buffer.Length
    }

    function Contents(): seq<byte>
      requires Valid()
      reads this, buffer
    {
      buffer[head..head + used]
    }

    lemma UsedIs()
      requires Valid()
      ensures |Contents()| == used
    {
    }

    function TotalSize(): nat
      reads this
    {
      head + shared + tail + used
    }

    /** What can be reserved at the back without growing the allocation. */
    function RoomAtEnd(): nat
      reads this
    {
      shared + tail
    }

    constructor (size: nat)
      ensures Valid() && fresh(buffer)
      ensures Contents() == [] && TotalSize() == size && RoomAtEnd() == size
    {
      buffer := new byte[size];
      data, head, shared, tail, used := 0, 0, size, 0, 0;
    }

    /** memmove within the allocation. */
    method Move(to: nat, from: nat, count: nat)
      requires to + count <= buffer.Length && from + count <= buffer.Length
      modifies buffer
      ensures buffer[to..to + count] == old(buffer[from..from + count])
      ensures buffer[..to] == old(buffer[..to])
      ensures buffer[to + count..] == old(buffer[to + count..])
    {
      forall i | to <= i < to + count {
        buffer[i] := buffer[from + i - to];
      }
    }

    /** Gives up `surplus` octets of the allocation: shared, tail, head, and last the data. */
    method Shrink(surplus: nat)
      requires Valid() && surplus <= TotalSize()
      modifies this, buffer
      ensures buffer == old(buffer)
      ensures TotalSize() == old(TotalSize()) - surplus
      ensures used == Min(old(used), TotalSize())
      ensures head + used <= buffer.Length && buffer[head..head + used] == old(Contents())[..used]
      ensures shared == Monus(old(shared), surplus)
      ensures tail == Monus(old(tail), Monus(surplus, old(shared)))
      ensures head == Monus(old(head), Monus(surplus, old(shared + tail)))
    {
      hide Monus, Min;
      CutShared(shared, tail, head, used, surplus);
      var rest := Monus(surplus, shared);
      shared := Monus(shared, surplus);
      var rest' := Monus(rest, tail);
      tail := Monus(tail, rest);
      var front := Monus(head, rest');
      var rest'' := Monus(rest', head);
      Move(front, head, used);
      head := front;
      used := Monus(used, rest'');
    }

    /**
     Growing adds shared space. Shrinking eats the shared space, then the tail, then
     the head, and only then the octets in use, of which a prefix survives.
     */
    method Resize(newSize: nat)
      requires Valid()
      modifies this, buffer
      ensures Valid() && fresh(buffer)
      ensures TotalSize() == newSize
      ensures used == Min(old(used), newSize)
      ensures Contents() == old(Contents())[..used]
      ensures newSize >= old(TotalSize()) ==>
                head == old(head) && tail == old(tail) && shared == old(shared) + newSize - old(TotalSize())
      ensures newSize < old(TotalSize()) ==>
                var cut := old(TotalSize()) - newSize;
                && shared == Monus(old(shared), cut)
                && tail == Monus(old(tail), Monus(cut, old(shared)))
                && head == Monus(old(head), Monus(cut, old(shared + tail)))
    {
      var size := TotalSize();
      if newSize < size {
        Shrink(size - newSize);
        Reallocate(newSize);
      } else {
        Reallocate(newSize);
        shared := shared + (newSize - size);
      }
      data := head;
    }

    /** realloc: a new allocation that starts with what fits of the present one. */
    method Reallocate(size: nat)
      requires head + used <= buffer.Length && head + used <= size
      modifies this`buffer
      ensures fresh(buffer) && buffer.Length == size
      ensures buffer[head..head + used] == old(buffer[head..head + used])
    {
      var moved := new byte[size];
      forall i | 0 <= i < size && i < buffer.Length {
        moved[i] := buffer[i];
      }
      buffer := moved;
    }

    /** Forgets the contents and makes all of the allocation shared space again. */
    method Reuse()
      requires Valid()
      modifies this
      ensures Valid() && Contents() == [] && buffer == old(buffer)
      ensures TotalSize() == old(TotalSize()) && RoomAtEnd() == TotalSize()
      ensures shared == TotalSize()
    {
      shared := TotalSize();
      head, tail, used := 0, 0, 0;
      data := 0;
    }

    /** Prepends `count` octets of unspecified value; answers their offset. */
    method ReserveBegin(count: nat) returns (at: nat)
      requires Valid()
      modifies this, buffer
      ensures Valid() && (buffer == old(buffer) || fresh(buffer))
      ensures at == head && used == old(used) + count
      ensures Contents()[count..] == old(Contents())
      ensures TotalSize() == old(TotalSize()) + Monus(count, old(head + shared))
      ensures count <= old(head + shared) ==> buffer == old(buffer)
    {
      if head < count {
        FreeHead(count);
      }
      head := head - count;
      used := used + count;
      data := head;
      at := head;
    }

    /** Grows the allocation; what is added can be used at either end. */
    method Grow(extra: nat)
      requires Valid()
      modifies this, buffer
      ensures Valid() && fresh(buffer) && head == old(head) && used == old(used) && tail == old(tail)
      ensures shared == old(shared) + extra && Contents() == old(Contents())
    {
      hide Monus;
      UsedIs();
      Resize(TotalSize() + extra);
      assert old(Contents())[..used] == old(Contents());
    }

    /** Moves the octets in use up, until exactly `count` octets before them are free. */
    method FreeHead(count: nat)
      requires Valid() && head < count
      modifies this, buffer
      ensures Valid() && (buffer == old(buffer) || fresh(buffer))
      ensures head == count && Contents() == old(Contents())
      ensures TotalSize() == old(TotalSize()) + Monus(count, old(head + shared))
      ensures count <= old(head + shared) ==> buffer == old(buffer)
    {
      if count > head + shared {
        Grow(count - head - shared);
      }
      Move(count, head, used);
      shared := shared - (count - head);
      head, data := count, count;
    }

    /** Appends `count` octets of unspecified value; answers their offset. */
    method ReserveEnd(count: nat) returns (at: nat)
      requires Valid()
      modifies this, buffer
      ensures Valid() && (buffer == old(buffer) || fresh(buffer))
      ensures at == head + old(used) && head == old(head) && used == old(used) + count
      ensures Contents()[..old(used)] == old(Contents())
      ensures TotalSize() == old(TotalSize()) + Monus(count, old(RoomAtEnd()))
      ensures buffer == old(buffer) <==> count <= old(RoomAtEnd())
      ensures RoomAtEnd() == Monus(old(RoomAtEnd()), count) && tail == Monus(old(tail), count)
    {
      ghost var contents := Contents();
      if tail >= count {
        tail := tail - count;
      } else {
        if count > tail + shared {
          Grow(count - tail - shared);
        }
        shared := shared - (count - tail);
        tail := 0;
      }
      at := head + used;
      used := used + count;
      data := head;
      assert buffer[head..head + |contents|] == contents;
      SlicePrefix(buffer, head, |contents|, used);
    }

    /** Stores octets over part of the contents, as the callers do through a reserved pointer. */
    method Fill(at: nat, octets: seq<byte>)
      requires Valid() && head <= at && at + |octets| <= head + used
      modifies buffer
      ensures Contents() == old(Contents())[..at - head] + octets + old(Contents())[at - head + |octets|..]
    {
      ghost var before, k := Contents(), at - head;
      forall i | 0 <= i < |octets| {
        buffer[at + i] := octets[i];
      }
      forall i | 0 <= i < used
        ensures Contents()[i] == if k <= i < k + |octets| then octets[i - k] else before[i]
      {
        assert Contents()[i] == buffer[head + i] && before[i] == old(buffer[head + i]);
      }
      Spliced(before, k, octets, Contents());
    }

    method InsertBegin(octets: seq<byte>)
      requires Valid()
      modifies this, buffer
      ensures Valid() && (buffer == old(buffer) || fresh(buffer))
      ensures Contents() == octets + old(Contents())
      ensures TotalSize() == old(TotalSize()) + Monus(|octets|, old(head + shared))
      ensures |octets| <= old(head + shared) ==> buffer == old(buffer)
    {
      ghost var contents := Contents();
      var at := ReserveBegin(|octets|);
      assert Contents()[|octets|..] == contents;
      Fill(at, octets);
      assert Contents() == octets + contents;
    }

    method InsertEnd(octets: seq<byte>)
      requires Valid()
      modifies this, buffer
      ensures Valid() && (buffer == old(buffer) || fresh(buffer))
      ensures Contents() == old(Contents()) + octets
      ensures head == old(head) && used == old(used) + |octets|
      ensures TotalSize() == old(TotalSize()) + Monus(|octets|, old(RoomAtEnd()))
      ensures buffer == old(buffer) <==> |octets| <= old(RoomAtEnd())
      ensures RoomAtEnd() == Monus(old(RoomAtEnd()), |octets|) && tail == Monus(old(tail), |octets|)
    {
      ghost var contents := Contents();
      var at := ReserveEnd(|octets|);
      assert Contents()[..|contents|] == contents;
      Fill(at, octets);
      assert Contents() == contents + octets;
    }

    /** Drops octets from the front, all of them when fewer than `count` are in use. */
    method RemoveBegin(count: nat)
      requires Valid()
      modifies this
      ensures Valid() && buffer == old(buffer)
      ensures Contents() == old(Contents())[Min(count, old(used))..]
      ensures TotalSize() == old(TotalSize()) && RoomAtEnd() == old(RoomAtEnd())
    {
      if count < used {
        head := head + count;
        used := used - count;
      } else {
        head := head + used;
        used := 0;
      }
      data := head;
    }

    /** Drops octets from the back, all of them when fewer than `count` are in use. */
    method RemoveEnd(count: nat)
      requires Valid()
      modifies this
      ensures Valid() && buffer == old(buffer)
      ensures Contents() == old(Contents())[..old(used) - Min(count, old(used))]
      ensures TotalSize() == old(TotalSize())
      ensures RoomAtEnd() == old(RoomAtEnd()) + Min(count, old(used))
    {
      if count < used {
        tail := tail + count;
        used := used - count;
      } else {
        tail := tail + used;
        used := 0;
      }
    }
  }
}
