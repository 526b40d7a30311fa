/** HISE's CircularAudioSampleBuffer: a ring of `size` samples per channel with
    a write index, a read index and a count of samples available to read. */
module CircularBuffer {

  /** A float sample; the buffer only copies samples. */
  type Sample = real

  /** The ring position the k-th sample of a block that starts at index start
      goes to, for start <= size and k < size. */
  function Slot(start: int, k: int, size: int): int
  {
    if start + k < size then start + k else start + k - size
  }

  /** Position p is covered by a block of n samples starting at index start. */
  predicate InWindow(start: int, n: int, p: int, size: int)
  {
    (start <= p < start + n) || p < start + n - size
  }

  /** FloatVectorOperations::copy of count samples, once for every channel. */
  method CopyBlock(dst: array2<Sample>, dstStart: int, src: array2<Sample>, srcStart: int, count: int)
    requires dst != src && dst.Length0 == src.Length0
    requires 0 <= count
    requires 0 <= dstStart && dstStart + count <= dst.Length1
    requires 0 <= srcStart && srcStart + count <= src.Length1
    modifies dst
    ensures forall c, p :: 0 <= c < dst.Length0 && dstStart <= p < dstStart + count ==>
      dst[c, p] == src[c, p - dstStart + srcStart]
    ensures forall c, p :: 0 <= c < dst.Length0 && 0 <= p < dst.Length1 && !(dstStart <= p < dstStart + count) ==>
      dst[c, p] == old(dst[c, p])
  {
    for c := 0 to dst.Length0
      invariant forall c', p :: 0 <= c' < c && dstStart <= p < dstStart + count ==>
        dst[c', p] == src[c', p - dstStart + srcStart]
      invariant forall c', p :: 0 <= c' < dst.Length0 && 0 <= p < dst.Length1 && !(c' < c && dstStart <= p < dstStart + count) ==>
        dst[c', p] == old(dst[c', p])
    {
      for k := 0 to count
        invariant forall c', p :: 0 <= c' < c && dstStart <= p < dstStart + count ==>
          dst[c', p] == src[c', p - dstStart + srcStart]
        invariant forall p :: dstStart <= p < dstStart + k ==> dst[c, p] == src[c, p - dstStart + srcStart]
        invariant forall c', p ::
          (0 <= c' < dst.Length0 && 0 <= p < dst.Length1 &&
           !(c' < c && dstStart <= p < dstStart + count) && !(c' == c && dstStart <= p < dstStart + k))
          ==> dst[c', p] == old(dst[c', p])
      {
        dst[c, dstStart + k] := src[c, srcStart + k];
      }
    }
  }

  class CircularAudioSampleBuffer {
    const numChannels: int
    const size: int
    const internalBuffer: array2<Sample>
    var writeIndex: int
    var readIndex: int
    var numAvailable: int
    /** How many more times the write index has wrapped than the read index. */
    ghost var laps: int

    /** The indices stay within the ring, and the read index plus the number of
        available samples is the write index plus whole turns of the ring. */
    ghost predicate Valid()
      reads this
    {
      0 <= numChannels && 0 <= size &&
      internalBuffer.Length0 == numChannels && internalBuffer.Length1 == size &&
      0 <= writeIndex <= size && 0 <= readIndex <= size &&
      readIndex + numAvailable == writeIndex + laps * size
    }

    constructor (numChannels: int, numSamples: int)
      requires 0 <= numChannels && 0 <= numSamples
      ensures Valid() && fresh(internalBuffer)
      ensures this.numChannels == numChannels && size == numSamples
      ensures writeIndex == 0 && readIndex == 0 && numAvailable == 0
      ensures forall c, p :: 0 <= c < numChannels && 0 <= p < size ==> internalBuffer[c, p] == 0.0
    {
      this.numChannels := numChannels;
      size := numSamples;
      internalBuffer := new Sample[numChannels, numSamples]((c, p) => 0.0);
      writeIndex, readIndex, numAvailable := 0, 0, 0;
      laps := 0;
    }

    /** Copies numSamples samples of source, from offsetInSource on, into the
        ring at the write index, wrapping at the end; false when more samples
        are now available than the ring holds. */
    method WriteSamples(source: array2<Sample>, offsetInSource: int, numSamples: int) returns (ok: bool)
      requires Valid()
      requires source != internalBuffer && source.Length0 == numChannels
      requires 0 <= numSamples && 0 <= offsetInSource && offsetInSource + numSamples <= source.Length1
      requires writeIndex + numSamples <= 2 * size
      modifies this`writeIndex, this`numAvailable, this`laps, internalBuffer
      ensures Valid()
      ensures writeIndex == if old(writeIndex) + numSamples > size then old(writeIndex) + numSamples - size
                            else old(writeIndex) + numSamples
      ensures readIndex == old(readIndex)
      ensures numAvailable == old(numAvailable) + numSamples
      ensures ok <==> numAvailable <= size
      ensures forall c, k :: 0 <= c < numChannels && 0 <= k < numSamples && numSamples - size <= k ==>
        internalBuffer[c, Slot(old(writeIndex), k, size)] == source[c, offsetInSource + k]
      ensures forall c, p :: 0 <= c < numChannels && 0 <= p < size && !InWindow(old(writeIndex), numSamples, p, size) ==>
        internalBuffer[c, p] == old(internalBuffer[c, p])
    {
      var needsWrapping := writeIndex + numSamples > size;
      if needsWrapping {
        var numSamplesBeforeWrap := size - writeIndex;
        if numSamplesBeforeWrap > 0 {
          CopyBlock(internalBuffer, writeIndex, source, offsetInSource, numSamplesBeforeWrap);
        }
        var numSamplesAfterWrap := numSamples - numSamplesBeforeWrap;
        if numSamplesAfterWrap > 0 {
          CopyBlock(internalBuffer, 0, source, offsetInSource + numSamplesBeforeWrap, numSamplesAfterWrap);
        }
        writeIndex := numSamplesAfterWrap;
        laps := laps + 1;
        assert (laps - 1) * size + size == laps * size;
      } else {
        CopyBlock(internalBuffer, writeIndex, source, offsetInSource, numSamples);
        writeIndex := writeIndex + numSamples;
      }
      numAvailable := numAvailable + numSamples;
      ok := numAvailable <= size;
    }

    /** Copies numSamples samples from the ring at the read index, wrapping at
        the end, into destination from offsetInDestination on; false when
        fewer samples were available than read. */
    method ReadSamples(destination: array2<Sample>, offsetInDestination: int, numSamples: int) returns (ok: bool)
      requires Valid()
      requires destination != internalBuffer && destination.Length0 == numChannels
      requires 0 <= numSamples && 0 <= offsetInDestination && offsetInDestination + numSamples <= destination.Length1
      requires readIndex + numSamples <= 2 * size
      modifies this`readIndex, this`numAvailable, this`laps, destination
      ensures Valid()
      ensures readIndex == if old(readIndex) + numSamples > size then old(readIndex) + numSamples - size
                           else old(readIndex) + numSamples
      ensures writeIndex == old(writeIndex)
      ensures numAvailable == old(numAvailable) - numSamples
      ensures ok <==> numAvailable >= 0
      ensures forall c, p :: 0 <= c < numChannels && offsetInDestination <= p < offsetInDestination + numSamples ==>
        destination[c, p] == internalBuffer[c, Slot(old(readIndex), p - offsetInDestination, size)]
      ensures forall c, p ::
        (0 <= c < numChannels && 0 <= p < destination.Length1 &&
         !(offsetInDestination <= p < offsetInDestination + numSamples))
        ==> destination[c, p] == old(destination[c, p])
    {
      numAvailable := numAvailable - numSamples;
      var needsWrapping := readIndex + numSamples > size;
      if needsWrapping {
        var numSamplesBeforeWrap := size - readIndex;
        if numSamplesBeforeWrap > 0 {
          CopyBlock(destination, offsetInDestination, internalBuffer, readIndex, numSamplesBeforeWrap);
        }
        var numSamplesAfterWrap := numSamples - numSamplesBeforeWrap;
        if numSamplesAfterWrap > 0 {
          CopyBlock(destination, offsetInDestination + numSamplesBeforeWrap, internalBuffer, 0, numSamplesAfterWrap);
        }
        readIndex := numSamplesAfterWrap;
        laps := laps - 1;
        assert (laps + 1) * size - size == laps * size;
      } else {
        CopyBlock(destination, offsetInDestination, internalBuffer, readIndex, numSamples);
        readIndex := readIndex + numSamples;
      }
      ok := numAvailable >= 0;
    }
  }

  /** A whole number of turns that fits between -size and size is at most one turn. */
  lemma LapsBound(laps: int, size: int)
    requires size > 0 && -size <= laps * size <= size
    ensures -1 <= laps <= 1
  {
  }

  /** Two indices that agree modulo the ring size put every sample of a block
      at the same ring position. */
  lemma SameSlot(w: int, r: int, laps: int, k: int, size: int)
    requires size > 0 && 0 <= w <= size && 0 <= r <= size && 0 <= k < size
    requires r == w + laps * size
    ensures Slot(w, k, size) == Slot(r, k, size)
  {
    LapsBound(laps, size);
    if laps == 1 {
      assert r == w + size;
    } else if laps == -1 {
      assert w == r + size;
    }
  }

  /** Reading numSamples samples right after writing them into an empty ring
      gives back exactly the samples written. */
  method WriteThenRead(b: CircularAudioSampleBuffer, source: array2<Sample>, destination: array2<Sample>, numSamples: int)
    returns (wrote: bool, read: bool)
    requires b.Valid() && b.numAvailable == 0
    requires source != b.internalBuffer && destination != b.internalBuffer && source != destination
    requires source.Length0 == b.numChannels && destination.Length0 == b.numChannels
    requires 0 <= numSamples <= b.size && numSamples <= source.Length1 && numSamples <= destination.Length1
    modifies b, b.internalBuffer, destination
    ensures wrote && read && b.Valid() && b.numAvailable == 0
    ensures forall c, p :: 0 <= c < b.numChannels && 0 <= p < numSamples ==> destination[c, p] == source[c, p]
  {
    var w, r := b.writeIndex, b.readIndex;
    ghost var laps := b.laps;
    wrote := b.WriteSamples(source, 0, numSamples);
    read := b.ReadSamples(destination, 0, numSamples);
    forall c, p | 0 <= c < b.numChannels && 0 <= p < numSamples
      ensures destination[c, p] == source[c, p]
    {
      SameSlot(w, r, laps, p, b.size);
      assert destination[c, p] == b.internalBuffer[c, Slot(r, p, b.size)];
      assert b.internalBuffer[c, Slot(w, p, b.size)] == source[c, 0 + p];
    }
  }
}
