/** verify_model_shards.py: reads that run in parallel and finish in any order, hashed in file order. */
module Shards {
  import opened Basics

  // ----- cutting a file into chunks -----

  function Min(a: nat, b: nat): nat { if a < b then a else b }

  function Chunk(data: Bytes, chunk: nat, n: nat): Bytes {
    data[Min(n * chunk, |data|)..Min(n * chunk + chunk, |data|)]
  }

  function Chunks(data: Bytes, chunk: nat, k: nat): (r: seq<Bytes>)
    ensures |r| == k
  {
    if k == 0 then [] else Chunks(data, chunk, k - 1) + [Chunk(data, chunk, k - 1)]
  }

  function Joined(parts: seq<Bytes>): Bytes {
    if parts == [] then [] else Joined(parts[..|parts| - 1]) + parts[|parts| - 1]
  }

  /** Rounded up. */
  function Count(size: nat, chunk: nat): (n: nat)
    requires chunk > 0
    ensures n * chunk >= size && (n > 0 ==> (n - 1) * chunk < size)
  {
    CountBounds(size, chunk);
    (size + chunk - 1) / chunk
  }

  lemma CountBounds(size: nat, chunk: nat)
    requires chunk > 0
    ensures var n := (size + chunk - 1) / chunk; n * chunk >= size && (n > 0 ==> (n - 1) * chunk < size)
  {
    var n := (size + chunk - 1) / chunk;
    assert n * chunk + (size + chunk - 1) % chunk == size + chunk - 1;
    assert (n - 1) * chunk == n * chunk - chunk;
  }

  lemma NextChunkStart(n: nat, chunk: nat)
    ensures (n + 1) * chunk == n * chunk + chunk
  {
  }

  lemma JoinSlices(s: Bytes, a: nat, b: nat)
    requires a <= b <= |s|
    ensures s[..a] + s[a..b] == s[..b]
  {
  }

  lemma PrefixSlice(s: Bytes, p: nat, lo: nat, hi: nat)
    requires lo <= hi <= p <= |s|
    ensures s[..p][lo..hi] == s[lo..hi]
  {
  }

  lemma SuffixSlice(s: Bytes, p: nat, lo: nat, hi: nat)
    requires p <= lo <= hi <= |s|
    ensures s[p..][lo - p..hi - p] == s[lo..hi]
  {
  }

  lemma Monotone(a: nat, b: nat, chunk: nat)
    requires a <= b
    ensures a * chunk <= b * chunk
  {
  }

  /** The first k chunks, joined, are the file up to their end. */
  lemma {:induction false} ChunksJoin(data: Bytes, chunk: nat, k: nat)
    ensures Joined(Chunks(data, chunk, k)) == data[..Min(k * chunk, |data|)]
  {
    if k > 0 {
      ChunksJoin(data, chunk, k - 1);
      NextChunkStart(k - 1, chunk);
      var parts := Chunks(data, chunk, k);
      assert parts[..k - 1] == Chunks(data, chunk, k - 1);
      var a, b := Min((k - 1) * chunk, |data|), Min(k * chunk, |data|);
      JoinSlices(data, a, b);
    }
  }

  /** All chunks, joined, are the file: every byte once, in order. */
  lemma AllChunksJoin(data: Bytes, chunk: nat)
    requires chunk > 0
    ensures Joined(Chunks(data, chunk, Count(|data|, chunk))) == data
  {
    ChunksJoin(data, chunk, Count(|data|, chunk));
  }

  // ----- the window of reads -----

  datatype Future = Waiting(n: nat) | Done(n: nat, data: Bytes)

  /** One shard being read: the source, the local copy being written, the reads in flight, what was hashed. */
  class Reader {
    const source: Bytes
    const chunk: nat
    const workers: nat
    const copying: bool
    const kept: nat
    const prefix: nat
    ghost const stream: Bytes

    var out: Bytes
    var pending: seq<Future>
    var nextChunk: nat
    var done: nat
    var updates: seq<Bytes>

    /** The kept prefix is whole chunks of the interrupted copy; the rest will come from the source. */
    constructor (source: Bytes, chunk: nat, workers: nat, partial: Option<Bytes>, copying: bool)
      requires chunk > 0 && workers > 0
      ensures Ready() && this.source == source && this.chunk == chunk && this.workers == workers && this.copying == copying
      ensures pending == [] && nextChunk == 0 && updates == []
      ensures prefix == KeptPrefix(|source|, partial, copying, chunk)
      ensures stream == StreamOf(source, partial, copying, chunk)
    {
      var p := KeptPrefix(|source|, partial, copying, chunk);
      this.source, this.chunk, this.workers, this.copying := source, chunk, workers, copying;
      this.kept, this.prefix := KeptChunks(|source|, partial, copying, chunk), p;
      this.stream := StreamOf(source, partial, copying, chunk);
      this.out := if p > 0 then partial.value[..p] else [];
      this.pending, this.nextChunk, this.done, this.updates := [], 0, 0, [];
      new;
      assert 0 * chunk == 0;
      assert stream[..prefix] == out;
    }

    predicate Sizes()
    {
      chunk > 0 && workers > 0 && prefix <= |source| && prefix == kept * chunk
    }

    /** The reads in flight are the next chunks in order, at most one a worker, and a finished one has its chunk. */
    ghost predicate Window()
      reads this`pending, this`nextChunk
    {
      && |pending| <= workers && |pending| <= nextChunk
      && forall i | 0 <= i < |pending| ::
           && pending[i].n == nextChunk - |pending| + i
           && (pending[i].Done? ==> pending[i].data == Chunk(stream, chunk, pending[i].n))
    }

    /** What has been taken from the window was hashed in order, and the copy is the stream up to there. */
    ghost predicate Consumed(taken: nat)
      reads this`out, this`done, this`updates
    {
      && prefix <= |stream|
      && updates == Chunks(stream, chunk, taken) && done == Min(taken * chunk, |stream|)
      && (copying ==> out == stream[..if done > prefix then done else prefix])
    }

    ghost predicate Source()
    {
      prefix <= |stream| == |source| && stream[prefix..] == source[prefix..] && (prefix > 0 ==> copying)
    }

    ghost predicate Ready()
      reads this
    {
      Sizes() && Source() && Window() && Consumed(nextChunk - |pending|)
    }

    /** read: from the local copy inside the kept prefix, and never past it; otherwise from the source. */
    method Read(n: nat) returns (data: Bytes)
      requires Ready() && n * chunk < |source|
      ensures data == Chunk(stream, chunk, n)
      ensures n * chunk < prefix ==> n * chunk + |data| <= prefix && data == out[n * chunk..n * chunk + |data|]
    {
      hide Consumed, Window;
      var lo, hi := n * chunk, n * chunk + Min(chunk, |source| - n * chunk);
      if lo < prefix {
        PrefixHoldsChunk(n, chunk, kept);
        OutHasPrefix();
        data := out[lo..hi];
        PrefixSlice(out, prefix, lo, hi);
        PrefixSlice(stream, prefix, lo, hi);
      } else {
        data := source[lo..hi];
        SuffixSlice(source, prefix, lo, hi);
        SuffixSlice(stream, prefix, lo, hi);
      }
    }

    lemma OutHasPrefix()
      requires Ready() && prefix > 0
      ensures |out| >= prefix && out[..prefix] == stream[..prefix]
    {
      hide Chunks, Chunk, Window;
    }

    /** A worker finishes the i-th read in flight, whatever the others have done. */
    method Finish(i: nat)
      requires Ready() && i < |pending| && nextChunk <= Count(|source|, chunk)
      modifies this`pending
      ensures Ready() && |pending| == old(|pending|) && pending[i].Done?
      ensures forall j | 0 <= j < |pending| :: pending[j].n == old(pending[j]).n
    {
      hide Consumed, Count;
      if pending[i].Waiting? {
        var n := pending[i].n;
        ChunkStartsInside(n, |source|, chunk);
        var data := Read(n);
        pending := pending[i := Done(n, data)];
      }
    }

    /** Any of the reads in flight finish, in any order. */
    method Progress(which: seq<nat>)
      requires Ready() && nextChunk <= Count(|source|, chunk)
      modifies this`pending
      ensures Ready() && |pending| == old(|pending|)
    {
      hide Ready, Count;
      for k := 0 to |which|
        invariant Ready() && |pending| == old(|pending|)
      {
        if which[k] < |pending| {
          Finish(which[k]);
        }
      }
    }

    method Submit()
      requires Ready() && |pending| < workers && nextChunk < Count(|source|, chunk)
      modifies this`pending, this`nextChunk
      ensures Ready() && |pending| == old(|pending|) + 1 && nextChunk == old(nextChunk) + 1
    {
      hide Consumed, Count;
      pending := pending + [Waiting(nextChunk)];
      nextChunk := nextChunk + 1;
    }

    /** Wait for the oldest read, hash its data, and write it to the copy unless the copy has it already. */
    method TakeFirst()
      requires Ready() && pending != [] && nextChunk <= Count(|source|, chunk)
      modifies this`pending, this`out, this`done, this`updates
      ensures Ready() && |pending| == old(|pending|) - 1
    {
      hide Count, Chunk, Chunks;
      Finish(0);
      ghost var taken := nextChunk - |pending|;
      var data := pending[0].data;
      assert Consumed(taken);
      ChunkStartsInside(taken, |source|, chunk);
      ConsumeOne(taken, data);
      pending := pending[1..];
      updates := updates + [data];
      if copying && done >= prefix {
        out := out + data;
      }
      done := done + |data|;
    }

    lemma ConsumeOne(taken: nat, data: Bytes)
      requires Sizes() && Source() && Consumed(taken) && taken * chunk < |stream| && data == Chunk(stream, chunk, taken)
      ensures updates + [data] == Chunks(stream, chunk, taken + 1)
      ensures done + |data| == Min((taken + 1) * chunk, |stream|) && stream[..done] + data == stream[..done + |data|]
      ensures done >= prefix || done + |data| <= prefix
    {
      NextChunkStart(taken, chunk);
      StartBesidePrefix(taken, chunk, kept);
      var lo := taken * chunk;
      var hi := Min(lo + chunk, |stream|);
      assert data == stream[lo..hi] && done == lo;
      JoinSlices(stream, lo, hi);
    }

    /** The loop over the window. The schedule says which reads finish when. */
    method ReadAll(schedule: nat -> seq<nat>)
      requires Ready() && pending == [] && nextChunk == 0
      modifies this
      ensures updates == Chunks(stream, chunk, Count(|source|, chunk))
      ensures copying ==> out == stream
    {
      var count := Count(|source|, chunk);
      while nextChunk < count && |pending| < workers
        invariant Ready() && nextChunk == |pending| <= count
        decreases count - nextChunk
      {
        Submit();
      }
      var moment: nat := 0;
      while pending != []
        invariant Ready() && nextChunk <= count
        invariant pending == [] ==> nextChunk == count
        decreases count - nextChunk, |pending|
      {
        Progress(schedule(moment));
        TakeFirst();
        Progress(schedule(moment + 1));
        if nextChunk < count {
          Submit();
        }
        moment := moment + 2;
      }
      assert Consumed(count);
    }
  }

  lemma PrefixHoldsChunk(n: nat, chunk: nat, kept: nat)
    requires n * chunk < kept * chunk
    ensures n * chunk + chunk <= kept * chunk
  {
    if n >= kept { Monotone(kept, n, chunk); }
    Monotone(n + 1, kept, chunk);
    NextChunkStart(n, chunk);
  }

  lemma ChunkStartsInside(n: nat, size: nat, chunk: nat)
    requires chunk > 0 && n < Count(size, chunk)
    ensures n * chunk < size
  {
    Monotone(n, Count(size, chunk) - 1, chunk);
  }

  /** A chunk starts at or after the prefix, or ends inside it. */
  lemma StartBesidePrefix(n: nat, chunk: nat, kept: nat)
    ensures n * chunk >= kept * chunk || n * chunk + chunk <= kept * chunk
  {
    if n * chunk < kept * chunk { PrefixHoldsChunk(n, chunk, kept); }
  }

  // ----- one shard -----

  function KeptChunks(size: nat, partial: Option<Bytes>, copying: bool, chunk: nat): nat
    requires chunk > 0
  {
    if copying && partial.Some? then Min(size, |partial.value|) / chunk else 0
  }

  function KeptPrefix(size: nat, partial: Option<Bytes>, copying: bool, chunk: nat): (p: nat)
    requires chunk > 0
    ensures p <= size && (p > 0 ==> copying && partial.Some? && p <= |partial.value|)
  {
    WholeChunks(if partial.Some? then Min(size, |partial.value|) else 0, chunk);
    KeptChunks(size, partial, copying, chunk) * chunk
  }

  /** A resumed copy keeps as many whole chunks as both it and the file have, and not one fewer; without a copy to resume
      nothing is kept. */
  lemma KeepsWholeChunks(size: nat, partial: Option<Bytes>, copying: bool, chunk: nat)
    requires chunk > 0
    ensures var p := KeptPrefix(size, partial, copying, chunk);
            && (exists n: nat :: p == n * chunk)
            && (if copying && partial.Some?
                then p <= size && p <= |partial.value| && (p + chunk > size || p + chunk > |partial.value|)
                else p == 0)
  {
    var p := KeptPrefix(size, partial, copying, chunk);
    assert p == KeptChunks(size, partial, copying, chunk) * chunk;
    if copying && partial.Some? {
      var least := Min(size, |partial.value|);
      assert least == least / chunk * chunk + least % chunk;
    }
  }

  lemma WholeChunks(n: nat, chunk: nat)
    requires chunk > 0
    ensures 0 <= n / chunk * chunk <= n
  {
  }

  /** What is hashed: the kept local prefix, then the source. */
  function StreamOf(source: Bytes, partial: Option<Bytes>, copying: bool, chunk: nat): (s: Bytes)
    requires chunk > 0
    ensures |s| == |source|
  {
    var p := KeptPrefix(|source|, partial, copying, chunk);
    (if p > 0 then partial.value[..p] else []) + source[p..]
  }

  /** On a resumed copy the source's own prefix is not read: any other bytes there give the same verdict. So an accepted
      stream speaks for the source exactly when the source agrees with it on the kept prefix. */
  lemma SourcePrefixIsUnread(source: Bytes, other: Bytes, partial: Option<Bytes>, copying: bool, chunk: nat)
    requires chunk > 0 && |other| == |source|
    ensures var p := KeptPrefix(|source|, partial, copying, chunk);
            && (source[p..] == other[p..] ==> StreamOf(source, partial, copying, chunk) == StreamOf(other, partial, copying, chunk))
            && (source == StreamOf(source, partial, copying, chunk)
                <==> source[..p] == StreamOf(source, partial, copying, chunk)[..p])
  {
    var p, stream := KeptPrefix(|source|, partial, copying, chunk), StreamOf(source, partial, copying, chunk);
    assert stream[p..] == source[p..];
    assert source == source[..p] + source[p..] && stream == stream[..p] + stream[p..];
  }

  datatype Failure = IncompleteSize | ChecksumMismatch | LocalCopyMismatch

  /** One file of main: accepted exactly when its size is right and the stream has the digest asked for. The copy is then
      the stream, so its own check never fails. The digest is any function of the bytes fed to it. */
  method VerifyShard<Digest(==)>(source: Bytes, size: nat, chunk: nat, workers: nat, partial: Option<Bytes>, copying: bool,
                                 oid: Digest, hash: Bytes -> Digest, schedule: nat -> seq<nat>)
    returns (r: Result<Option<Bytes>, Failure>)
    requires chunk > 0 && workers > 0
    ensures r.Ok? <==> |source| == size && hash(StreamOf(source, partial, copying, chunk)) == oid
    ensures r.Ok? ==> r.value == if copying then Some(StreamOf(source, partial, copying, chunk)) else None
    ensures r != Err(LocalCopyMismatch)
  {
    if |source| != size {
      return Err(IncompleteSize);
    }
    var reader := new Reader(source, chunk, workers, partial, copying);
    reader.ReadAll(schedule);
    AllChunksJoin(reader.stream, chunk);
    var actual := hash(Joined(reader.updates));
    if actual != oid {
      return Err(ChecksumMismatch);
    }
    if copying {
      if hash(reader.out) != actual {
        return Err(LocalCopyMismatch);
      }
      return Ok(Some(reader.out));
    }
    r := Ok(None);
  }
}
