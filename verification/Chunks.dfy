// How one frame is presented to the bus driver: whole, or in packet-aligned chunks under the
// host's buffer limit, described by one descriptor each.

module Chunks {
  import opened Arithmetic

  // PHOTONIC_CAPTURE_MAX_CHUNK_BYTES, PHOTONIC_CAPTURE_MAX_CHUNKS, PAGE_SIZE
  const MAX_CHUNK_BYTES: nat := 0x10_0000
  const MAX_CHUNKS: nat := 8
  const PAGE: nat := 4096

  datatype Setup = Setup(chunkBytes: nat, chunkCount: nat) | PacketTooLarge | TooManyChunks

  // ISOCH_DESCRIPTOR: a view of the frame, the start-of-frame gate and the completion callback.
  datatype Chunk = Chunk(offset: nat, length: nat, sync: bool, callback: bool)

  // The host's limit with its page of headroom; 0 when the query failed.
  function Limit(hostMax: nat): nat {
    if hostMax == 0 then MAX_CHUNK_BYTES else if hostMax > PAGE then hostMax - PAGE else hostMax
  }

  // PhotonicCapturePoolSetupChunks.
  function SetupChunks(frameBytes: nat, packet: nat, hostMax: nat): Setup
    requires packet > 0
  {
    if frameBytes <= Limit(hostMax) then Setup(frameBytes, 1)
    else
      var chunk := Limit(hostMax) / packet * packet;
      if chunk == 0 then PacketTooLarge
      else if (frameBytes + chunk - 1) / chunk > MAX_CHUNKS then TooManyChunks
      else Setup(chunk, (frameBytes + chunk - 1) / chunk)
  }

  // The chunks are a partition of the frame into whole packets, gated on the first packet and
  // completed by the last chunk only.
  predicate Partitions(chunks: seq<Chunk>, frameBytes: nat, packet: nat, chunkBytes: nat)
    requires packet > 0
  {
    && 1 <= |chunks| <= MAX_CHUNKS
    && chunks[0].offset == 0
    && (forall i :: 0 <= i < |chunks| - 1 ==> chunks[i + 1].offset == chunks[i].offset + chunks[i].length)
    && chunks[|chunks| - 1].offset + chunks[|chunks| - 1].length == frameBytes
    && (forall i :: 0 <= i < |chunks| ==> 0 < chunks[i].length <= chunkBytes)
    && (forall i :: 0 <= i < |chunks| ==> chunks[i].offset % packet == 0 && chunks[i].length % packet == 0)
    && (forall i :: 0 <= i < |chunks| ==> (chunks[i].sync <==> i == 0) && (chunks[i].callback <==> i == |chunks| - 1))
  }

  function TotalLength(chunks: seq<Chunk>): nat
    decreases |chunks|
  {
    if chunks == [] then 0 else TotalLength(chunks[..|chunks| - 1]) + chunks[|chunks| - 1].length
  }

  // A chunk size that the set-up produced: whole packets, and the count is the rounded-up
  // quotient, so the last chunk is not empty.
  lemma SetupFacts(frameBytes: nat, packet: nat, hostMax: nat)
    requires packet > 0 && frameBytes > 0 && frameBytes % packet == 0
    ensures var s := SetupChunks(frameBytes, packet, hostMax);
      s.Setup? ==>
        && 1 <= s.chunkCount <= MAX_CHUNKS && s.chunkBytes > 0 && s.chunkBytes % packet == 0
        && s.chunkBytes <= Limit(hostMax)
        && s.chunkBytes * (s.chunkCount - 1) < frameBytes <= s.chunkBytes * s.chunkCount
  {
    if frameBytes > Limit(hostMax) {
      var chunk := Limit(hostMax) / packet * packet;
      FlooredMultiples(Limit(hostMax), packet, packet * 0);
      if chunk > 0 { RoundedUp(frameBytes, chunk); }
    }
  }

  lemma RoundedUp(a: nat, b: nat)
    requires a > 0 && b > 0
    ensures var q := (a + b - 1) / b; q >= 1 && b * (q - 1) < a <= b * q
  {
    var q := (a + b - 1) / b;
    assert a + b - 1 == b * q + (a + b - 1) % b;
    assert b * (q - 1) == b * q - b;
    QuotientAtLeast(a + b - 1, b, 1);
  }

  // The set-up is refused exactly when even one packet exceeds the limit, or whole packets
  // under the limit cannot cover the frame in eight chunks.
  lemma RefusedMeans(frameBytes: nat, packet: nat, hostMax: nat)
    requires packet > 0 && frameBytes > 0
    ensures SetupChunks(frameBytes, packet, hostMax).PacketTooLarge? <==>
              frameBytes > Limit(hostMax) && packet > Limit(hostMax)
    ensures SetupChunks(frameBytes, packet, hostMax).TooManyChunks? <==>
              frameBytes > Limit(hostMax) && packet <= Limit(hostMax) &&
              frameBytes > MAX_CHUNKS * (Limit(hostMax) / packet * packet)
  {
    var limit := Limit(hostMax);
    FlooredMultiples(limit, packet, packet * 0);
    QuotientAtLeast(limit, packet, 1);
    var chunk := limit / packet * packet;
    if limit >= packet {
      MultipleSize(packet, limit / packet);
      assert chunk >= packet;
      RoundedUp(frameBytes, chunk);
      var q := (frameBytes + chunk - 1) / chunk;
      if q > MAX_CHUNKS { MultipleOrder(chunk, MAX_CHUNKS, q - 1); } else { MultipleOrder(chunk, q, MAX_CHUNKS); }
    } else {
      DivModIs(limit, packet, 0, limit);
    }
  }

  // One page of the host's limit is headroom, and a limit the host did not report is 1 MB: what
  // fits under it is one chunk, and whatever is refused needs more than eight chunks of whole
  // packets under it.
  lemma HeadroomKept(frameBytes: nat, packet: nat, hostMax: nat)
    requires packet > 0 && frameBytes > 0
    ensures hostMax > 4096 ==> (SetupChunks(frameBytes, packet, hostMax) == Setup(frameBytes, 1) <==>
                                frameBytes + 4096 <= hostMax)
    ensures hostMax > 4096 && !SetupChunks(frameBytes, packet, hostMax).Setup? ==>
              forall k: nat :: packet * k + 4096 <= hostMax ==> 8 * (packet * k) < frameBytes
    ensures 0 < hostMax <= 4096 ==> (SetupChunks(frameBytes, packet, hostMax) == Setup(frameBytes, 1) <==>
                                     frameBytes <= hostMax)
    ensures SetupChunks(frameBytes, packet, 0) == SetupChunks(frameBytes, packet, 0x10_0000 + 4096)
  {
    RefusedMeans(frameBytes, packet, hostMax);
    var limit := Limit(hostMax);
    FlooredMultiples(limit, packet, packet * 0);
    if hostMax > 4096 && !SetupChunks(frameBytes, packet, hostMax).Setup? {
      forall k: nat | packet * k + 4096 <= hostMax ensures 8 * (packet * k) < frameBytes {
        DivModIs(packet * k, packet, k, 0);
        FlooredMultiples(limit, packet, packet * k);
        if packet > limit && k > 0 { MultipleSize(packet, k); }
      }
    }
  }

  function ChunkAt(frameBytes: nat, chunkBytes: nat, chunkCount: nat, k: nat): Chunk
    requires chunkBytes * k <= frameBytes
  {
    Chunk(chunkBytes * k, if frameBytes - chunkBytes * k > chunkBytes then chunkBytes else frameBytes - chunkBytes * k,
          k == 0, k == chunkCount - 1)
  }

  // The loop of PhotonicCapturePumpPrime, which carries the offset along.
  method Prime(frameBytes: nat, chunkBytes: nat, chunkCount: nat) returns (chunks: seq<Chunk>)
    requires chunkBytes > 0 && chunkBytes * (chunkCount - 1) < frameBytes <= chunkBytes * chunkCount
    ensures |chunks| == chunkCount
    ensures forall k :: 0 <= k < chunkCount ==>
              chunkBytes * k <= frameBytes && chunks[k] == ChunkAt(frameBytes, chunkBytes, chunkCount, k)
  {
    chunks := [];
    var offset, chunk := 0, 0;
    while chunk < chunkCount
      invariant chunk == |chunks| <= chunkCount
      invariant chunk < chunkCount ==> offset == chunkBytes * chunk
      invariant forall k :: 0 <= k < chunk ==>
                  chunkBytes * k <= frameBytes && chunks[k] == ChunkAt(frameBytes, chunkBytes, chunkCount, k)
    {
      ChunkStarts(frameBytes, chunkBytes, chunkCount, chunk);
      var length := frameBytes - offset;
      if length > chunkBytes {
        length := chunkBytes;
      }
      chunks := chunks + [Chunk(offset, length, chunk == 0, chunk == chunkCount - 1)];
      offset := offset + length;
      chunk := chunk + 1;
    }
  }

  // Chunk k starts inside the frame; all but the last are full.
  lemma ChunkStarts(frameBytes: nat, chunkBytes: nat, chunkCount: nat, k: nat)
    requires chunkBytes > 0 && k < chunkCount
    requires chunkBytes * (chunkCount - 1) < frameBytes <= chunkBytes * chunkCount
    ensures chunkBytes * k < frameBytes
    ensures k < chunkCount - 1 ==> chunkBytes * (k + 1) == chunkBytes * k + chunkBytes < frameBytes
    ensures k == chunkCount - 1 ==> frameBytes - chunkBytes * k <= chunkBytes
  {
    MultipleOrder(chunkBytes, k, chunkCount - 1);
    assert chunkBytes * (k + 1) == chunkBytes * k + chunkBytes;
    if k < chunkCount - 1 { MultipleOrder(chunkBytes, k + 1, chunkCount - 1); }
    assert chunkBytes * chunkCount == chunkBytes * (chunkCount - 1) + chunkBytes;
  }

  lemma ModMultiple(a: nat, m: nat, k: nat)
    requires m > 0 && a % m == 0
    ensures (a * k) % m == 0
  {
    var q := a / m;
    assert a == m * q;
    assert a * k == m * (q * k);
    DivModIs(a * k, m, q * k, 0);
  }

  lemma ModDifference(a: nat, b: nat, m: nat)
    requires m > 0 && a % m == 0 && b % m == 0 && b <= a
    ensures (a - b) % m == 0
  {
    assert m * (a / m - b / m) == m * (a / m) - m * (b / m);
    DivModIs(a - b, m, a / m - b / m, 0);
  }

  lemma ChunkAligned(frameBytes: nat, packet: nat, chunkBytes: nat, chunkCount: nat, k: nat)
    requires packet > 0 && frameBytes % packet == 0 && chunkBytes % packet == 0 && chunkBytes > 0 && k < chunkCount
    requires chunkBytes * (chunkCount - 1) < frameBytes <= chunkBytes * chunkCount
    ensures chunkBytes * k <= frameBytes
    ensures var c := ChunkAt(frameBytes, chunkBytes, chunkCount, k);
            c.offset % packet == 0 && c.length % packet == 0 && 0 < c.length <= chunkBytes
  {
    ChunkStarts(frameBytes, chunkBytes, chunkCount, k);
    ModMultiple(chunkBytes, packet, k);
    ModDifference(frameBytes, chunkBytes * k, packet);
  }

  // What the set-up chose and the prime loop built partitions the frame.
  lemma ChunksPartition(frameBytes: nat, packet: nat, hostMax: nat, chunks: seq<Chunk>)
    requires packet > 0 && frameBytes > 0 && frameBytes % packet == 0
    requires SetupChunks(frameBytes, packet, hostMax).Setup?
    requires var s := SetupChunks(frameBytes, packet, hostMax);
      |chunks| == s.chunkCount && forall k :: 0 <= k < |chunks| ==>
        s.chunkBytes * k <= frameBytes && chunks[k] == ChunkAt(frameBytes, s.chunkBytes, s.chunkCount, k)
    ensures Partitions(chunks, frameBytes, packet, SetupChunks(frameBytes, packet, hostMax).chunkBytes)
    ensures TotalLength(chunks) == frameBytes
  {
    var s := SetupChunks(frameBytes, packet, hostMax);
    SetupFacts(frameBytes, packet, hostMax);
    forall i | 0 <= i < |chunks|
      ensures chunks[i].offset % packet == 0 && chunks[i].length % packet == 0 && 0 < chunks[i].length <= s.chunkBytes
      ensures i < |chunks| - 1 ==> chunks[i + 1].offset == chunks[i].offset + chunks[i].length
      ensures i == |chunks| - 1 ==> chunks[i].offset + chunks[i].length == frameBytes
    {
      ChunkAligned(frameBytes, packet, s.chunkBytes, s.chunkCount, i);
      ChunkStarts(frameBytes, s.chunkBytes, s.chunkCount, i);
    }
    Telescopes(chunks);
  }

  lemma {:induction false} Telescopes(chunks: seq<Chunk>)
    requires |chunks| > 0 && chunks[0].offset == 0
    requires forall i :: 0 <= i < |chunks| - 1 ==> chunks[i + 1].offset == chunks[i].offset + chunks[i].length
    ensures TotalLength(chunks) == chunks[|chunks| - 1].offset + chunks[|chunks| - 1].length
    decreases |chunks|
  {
    if |chunks| > 1 {
      var front := chunks[..|chunks| - 1];
      Telescopes(front);
      assert front[|front| - 1] == chunks[|chunks| - 2];
      assert chunks[|chunks| - 2 + 1].offset == chunks[|chunks| - 2].offset + chunks[|chunks| - 2].length;
    }
  }

  // Pages a buffer of that length spans from that address.
  function Pages(address: nat, length: nat): nat {
    (address % PAGE + length + PAGE - 1) / PAGE
  }

  // Wherever the consumer's buffer starts, a chunk fits the MDL allocated for one that starts
  // at the last byte of a page, and a page-multiple host limit.
  lemma ChunkFitsMdl(frameBytes: nat, packet: nat, hostMax: nat, address: nat, length: nat)
    requires packet > 0 && frameBytes > 0 && frameBytes % packet == 0
    requires SetupChunks(frameBytes, packet, hostMax).Setup?
    requires length <= SetupChunks(frameBytes, packet, hostMax).chunkBytes
    ensures Pages(address, length) <= Pages(PAGE - 1, SetupChunks(frameBytes, packet, hostMax).chunkBytes)
    ensures hostMax > PAGE && hostMax % PAGE == 0 ==> Pages(address, length) * PAGE <= hostMax
  {
    SetupFacts(frameBytes, packet, hostMax);
    var chunk := SetupChunks(frameBytes, packet, hostMax).chunkBytes;
    WorstStart(address % PAGE, length, chunk);
    if hostMax > PAGE && hostMax % PAGE == 0 { HeadroomPays(address % PAGE, length, hostMax / PAGE); }
  }

  lemma WorstStart(start: nat, length: nat, chunk: nat)
    requires start < PAGE && length <= chunk
    ensures (start + length + PAGE - 1) / PAGE <= Pages(PAGE - 1, chunk)
  {
    assert (PAGE - 1) % PAGE == PAGE - 1;
  }

  lemma HeadroomPays(start: nat, length: nat, pages: nat)
    requires start < PAGE && pages >= 1 && length <= PAGE * pages - PAGE
    ensures (start + length + PAGE - 1) / PAGE <= pages
  {
  }

  // The chunk size before the set-up: the whole frame if it fits, else whole packets under the
  // limit.
  function ChunkSize(frameBytes: nat, packet: nat, hostMax: nat): nat
    requires packet > 0
  {
    if frameBytes <= Limit(hostMax) then frameBytes else Limit(hostMax) / packet * packet
  }

  // A chunk of that size stays within the host's limit wherever it starts.
  ghost predicate FitsHost(chunk: nat, hostMax: nat) {
    forall address: nat :: Pages(address, chunk) * PAGE <= hostMax
  }

  // Exactly when every chunk of a set-up fits the host limit at every start: one started at the
  // last byte of a page must not spill past the whole pages of the limit.
  lemma FitsHostExactly(frameBytes: nat, packet: nat, hostMax: nat)
    requires packet > 0 && SetupChunks(frameBytes, packet, hostMax).Setup?
    ensures SetupChunks(frameBytes, packet, hostMax).chunkBytes == ChunkSize(frameBytes, packet, hostMax)
    ensures FitsHost(ChunkSize(frameBytes, packet, hostMax), hostMax) <==>
              ChunkSize(frameBytes, packet, hostMax) + 2 * PAGE - 2 < (hostMax / PAGE + 1) * PAGE
  {
    var chunk := ChunkSize(frameBytes, packet, hostMax);
    WorstFits(chunk, hostMax);
    if Pages(PAGE - 1, chunk) * PAGE <= hostMax {
      forall address: nat ensures Pages(address, chunk) * PAGE <= hostMax {
        WorstStart(address % PAGE, chunk, chunk);
      }
    }
  }

  lemma WorstFits(chunk: nat, hostMax: nat)
    ensures Pages(PAGE - 1, chunk) * PAGE <= hostMax <==> chunk + 2 * PAGE - 2 < (hostMax / PAGE + 1) * PAGE
  {
  }

  // The boundary is not the page multiple: a limit of one page is overrun, since no headroom is
  // taken of it, and so is one just under two pages, while an odd limit can be kept.
  lemma LimitsOverrun()
    ensures SetupChunks(8192, 4, 4096) == Setup(4096, 2) && !FitsHost(4096, 4096)
    ensures SetupChunks(8184, 4, 8190) == Setup(4092, 2) && !FitsHost(4092, 8190)
    ensures SetupChunks(8000, 2000, 8199) == Setup(4000, 2) && FitsHost(4000, 8199)
  {
    FitsHostExactly(8192, 4, 4096);
    FitsHostExactly(8184, 4, 8190);
    FitsHostExactly(8000, 2000, 8199);
  }
}
