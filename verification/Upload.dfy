/** Files that travel as chunks, and reading them back. */
module Upload {
  import opened GoStrings

  newtype byte = x: int | 0 <= x < 256

  const CHUNK: nat := 96 * 1024
  const FILE_MAX: nat := 50 * 1024 * 1024

  datatype Pending = Pending(size: nat, got: set<nat>, at: nat)

  datatype State = State(uploads: map<string, Pending>, files: map<string, seq<byte>>)

  datatype Op =
    | Begin(id: string, size: int, known: bool, now: nat)
    | Put(id: string, i: int, data: Option<seq<byte>>, now: nat)
    | Commit(id: string, known: bool)
    | Collect(cutoff: nat)

  datatype Fault = UnknownBot | SizeRange | FileExists | UnknownUpload | BadChunk | BadChunkSize | Incomplete | SizeMismatch

  datatype Reply = Opened(n: nat) | Stored(got: nat, n: nat) | Ingested(data: seq<byte>) | Refused(why: Fault) | NoReply

  // ----- chunk arithmetic -----

  /** `chunkCount`. */
  function ChunkCount(size: int): nat {
    if size <= 0 then 1 else (size + CHUNK - 1) / CHUNK
  }

  /** The length chunk `i` of a file has to have. */
  function Want(size: nat, i: nat): int {
    if i == ChunkCount(size) - 1 then size - i * CHUNK else CHUNK
  }

  /** Every chunk has its bytes inside the file, and every byte is in exactly one chunk. */
  lemma ChunksPartition(size: nat, p: nat, i: nat)
    requires p < size
    ensures i < ChunkCount(size) ==> 0 < Want(size, i) <= CHUNK && i * CHUNK + Want(size, i) <= size
    ensures i < ChunkCount(size) && i * CHUNK <= p < i * CHUNK + Want(size, i) <==> i == p / CHUNK
  {
    var n := ChunkCount(size);
    assert n * CHUNK >= size > (n - 1) * CHUNK;
    if i < n - 1 {
      assert (i + 1) * CHUNK <= (n - 1) * CHUNK;
    }
  }

  // ----- the handlers -----

  /** `WriteAt`. */
  function WriteAt(file: seq<byte>, off: nat, data: seq<byte>): seq<byte>
    requires off + |data| <= |file|
  {
    file[..off] + data + file[off + |data|..]
  }

  function Zeros(n: nat): (z: seq<byte>)
    ensures |z| == n && forall k :: 0 <= k < n ==> z[k] == 0
  {
    seq(n, _ => 0)
  }

  /** A chunk is stored if the upload is open, the index in range and the length right. */
  function PutFault(s: State, id: string, i: int, data: Option<seq<byte>>): Option<Fault> {
    if id !in s.uploads then Some(UnknownUpload)
    else
      var size := s.uploads[id].size;
      if i < 0 || i >= ChunkCount(size) || data.None? || data.value == [] then Some(BadChunk)
      else if |data.value| != Want(size, i) then Some(BadChunkSize)
      else None
  }

  /** Every open upload has its file, of the announced size, and only chunks in range. */
  ghost predicate Valid(s: State) {
    && s.uploads.Keys == s.files.Keys
    && forall id :: id in s.uploads ==> Fine(s.uploads[id], s.files[id])
  }

  ghost predicate Fine(u: Pending, file: seq<byte>) {
    && 0 < u.size <= FILE_MAX && |file| == u.size
    && forall i :: i in u.got ==> i < ChunkCount(u.size)
  }

  ghost function Handle(s: State, op: Op): (State, Reply)
    requires Valid(s)
  {
    match op
    case Begin(id, size, known, now) =>
      if !known then (s, Refused(UnknownBot))
      else if size <= 0 || size > FILE_MAX then (s, Refused(SizeRange))
      else if id in s.files then (s, Refused(FileExists))
      else (State(s.uploads[id := Pending(size, {}, now)], s.files[id := Zeros(size)]), Opened(ChunkCount(size)))
    case Put(id, i, data, now) =>
      var fault := PutFault(s, id, i, data);
      if fault.Some? then (s, Refused(fault.value))
      else
        var u := s.uploads[id];
        var got := u.got + {i as nat};
        (State(s.uploads[id := Pending(u.size, got, now)], s.files[id := WriteAt(s.files[id], i * CHUNK, data.value)]),
         Stored(|got|, ChunkCount(u.size)))
    case Commit(id, known) =>
      if id !in s.uploads then (s, Refused(UnknownUpload))
      else
        var u := s.uploads[id];
        (State(s.uploads - {id}, s.files - {id}),
         if |u.got| != ChunkCount(u.size) then Refused(Incomplete)
         else if !known then Refused(UnknownBot)
         else if |s.files[id]| != u.size then Refused(SizeMismatch)
         else Ingested(s.files[id]))
    case Collect(cutoff) =>
      var stale := set id | id in s.uploads && s.uploads[id].at < cutoff;
      (State(s.uploads - stale, s.files - stale), NoReply)
  }

  lemma HandleKeeps(s: State, op: Op)
    requires Valid(s)
    ensures Valid(Handle(s, op).0)
  {
  }

  class UploadTable {
    var uploads: map<string, Pending>
    var files: map<string, seq<byte>>

    ghost function Now(): State
      reads this
    {
      State(uploads, files)
    }

    /** `rpcPutBegin`. */
    method PutBegin(id: string, size: int, known: bool, now: nat) returns (r: Reply)
      requires Valid(Now())
      modifies this
      ensures (Now(), r) == Handle(old(Now()), Begin(id, size, known, now)) && Valid(Now())
    {
      HandleKeeps(Now(), Begin(id, size, known, now));
      if !known {
        return Refused(UnknownBot);
      }
      if size <= 0 || size > FILE_MAX {
        return Refused(SizeRange);
      }
      if id in files {
        return Refused(FileExists);
      }
      files := files[id := Zeros(size)];
      uploads := uploads[id := Pending(size, {}, now)];
      r := Opened(ChunkCount(size));
    }

    /** `rpcPutChunk`. */
    method PutChunk(id: string, i: int, data: Option<seq<byte>>, now: nat) returns (r: Reply)
      requires Valid(Now())
      modifies this
      ensures (Now(), r) == Handle(old(Now()), Put(id, i, data, now)) && Valid(Now())
    {
      HandleKeeps(Now(), Put(id, i, data, now));
      if id !in uploads {
        return Refused(UnknownUpload);
      }
      var u := uploads[id];
      var n := ChunkCount(u.size);
      if i < 0 || i >= n || data.None? || data.value == [] {
        return Refused(BadChunk);
      }
      var want := CHUNK;
      if i == n - 1 {
        want := u.size - i * CHUNK;
      }
      if |data.value| != want {
        return Refused(BadChunkSize);
      }
      assert 0 < Want(u.size, i) <= CHUNK && i * CHUNK + Want(u.size, i) <= u.size by {
        ChunksPartition(u.size, 0, i);
      }
      files := files[id := WriteAt(files[id], i * CHUNK, data.value)];
      uploads := uploads[id := Pending(u.size, u.got + {i as nat}, now)];
      r := Stored(|uploads[id].got|, n);
    }

    /** `rpcPutCommit`, up to handing the bytes on. */
    method PutCommit(id: string, known: bool) returns (r: Reply)
      requires Valid(Now())
      modifies this
      ensures (Now(), r) == Handle(old(Now()), Commit(id, known)) && Valid(Now())
    {
      HandleKeeps(Now(), Commit(id, known));
      if id !in uploads {
        return Refused(UnknownUpload);
      }
      var u, data := uploads[id], files[id];
      uploads, files := uploads - {id}, files - {id};
      if |u.got| != ChunkCount(u.size) {
        return Refused(Incomplete);
      }
      if !known {
        return Refused(UnknownBot);
      }
      if |data| != u.size {
        return Refused(SizeMismatch);
      }
      r := Ingested(data);
    }

    /** `gcUploads`: uploads nobody touched since the cutoff are dropped. */
    method GcUploads(cutoff: nat)
      requires Valid(Now())
      modifies this
      ensures Now() == Handle(old(Now()), Collect(cutoff)).0 && Valid(Now())
    {
      HandleKeeps(Now(), Collect(cutoff));
      var stale := set id | id in uploads && uploads[id].at < cutoff;
      uploads, files := uploads - stale, files - stale;
    }
  }

  // ----- runs -----

  ghost function After(run: seq<Op>): (s: State)
    ensures Valid(s)
  {
    if run == [] then State(map[], map[])
    else
      var s := After(run[..|run| - 1]);
      HandleKeeps(s, run[|run| - 1]);
      Handle(s, run[|run| - 1]).0
  }

  /** The data last stored for chunk `i` of the upload that is open under `id` at the end of the run. */
  ghost function LastStored(run: seq<Op>, id: string, i: nat): Option<seq<byte>> {
    if run == [] then None
    else
      var (front, op) := (run[..|run| - 1], run[|run| - 1]);
      var (s, reply) := Handle(After(front), op);
      if id !in s.uploads || (op.Begin? && op.id == id && reply.Opened?) then None
      else if op.Put? && op.id == id && op.i == i && reply.Stored? then op.data
      else LastStored(front, id, i)
  }

  function Slice(file: seq<byte>, i: nat): seq<byte> {
    if i * CHUNK >= |file| then []
    else if (i + 1) * CHUNK >= |file| then file[i * CHUNK..]
    else file[i * CHUNK..(i + 1) * CHUNK]
  }

  // ----- what one request does -----

  /** Every other upload is as it was. */
  ghost predicate OthersStay(s: State, r: State, id: string) {
    forall x :: x != id ==>
      && (x in r.uploads <==> x in s.uploads) && (x in r.files <==> x in s.files)
      && (x in s.uploads ==> r.uploads[x] == s.uploads[x]) && (x in s.files ==> r.files[x] == s.files[x])
  }

  /** A file of 1 byte to 50 MiB for a bot that is there is opened unless its id is in use: zeros, no chunk
      marked, in as many chunks of 96 KiB as it takes. Anything else is refused and changes nothing. */
  lemma BeginIs(s: State, id: string, size: int, known: bool, now: nat)
    requires Valid(s)
    ensures var (r, reply) := Handle(s, Begin(id, size, known, now));
            if known && 1 <= size <= 52428800 && id !in s.uploads then
              && reply.Opened? && (reply.n - 1) * 98304 < size <= reply.n * 98304
              && id in r.uploads && r.uploads[id] == Pending(size, {}, now)
              && id in r.files && |r.files[id]| == size && (forall k :: 0 <= k < size ==> r.files[id][k] == 0)
              && OthersStay(s, r, id)
            else r == s && reply == Refused(if !known then UnknownBot else if 1 <= size <= 52428800 then FileExists else SizeRange)
  {
  }

  /** A chunk is stored if and only if its upload is open, its index in range and it has just the bytes that
      belong there: at their offset, and nothing else in the file changes; its mark is set. */
  lemma PutIs(s: State, id: string, i: int, data: Option<seq<byte>>, now: nat)
    requires Valid(s)
    ensures var (r, reply) := Handle(s, Put(id, i, data, now));
            && (reply.Stored? <==> && id in s.uploads && 0 <= i < ChunkCount(s.uploads[id].size) && data.Some?
                                   && |data.value| == Min(98304, s.uploads[id].size - i * 98304))
            && (!reply.Stored? ==> r == s)
            && (reply.Stored? ==>
                  var u, was := s.uploads[id], s.files[id];
                  && id in r.uploads && r.uploads[id] == Pending(u.size, u.got + {i as nat}, now)
                  && id in r.files && |r.files[id]| == |was|
                  && (forall k :: 0 <= k < |was| ==>
                        r.files[id][k] == if i * 98304 <= k < i * 98304 + |data.value| then data.value[k - i * 98304] else was[k])
                  && OthersStay(s, r, id))
  {
    if id in s.uploads && 0 <= i < ChunkCount(s.uploads[id].size) {
      WantIs(s.uploads[id].size, i);
      hide ChunkCount, Want;
    }
  }

  function Min(a: int, b: int): int {
    if a < b then a else b
  }

  lemma WantIs(size: nat, i: nat)
    requires size > 0 && i < ChunkCount(size)
    ensures Want(size, i) == Min(CHUNK, size - i * CHUNK) > 0
  {
  }

  /** A commit closes its upload, whatever comes of it; the sweep closes exactly those not touched since. */
  lemma ClosingIs(s: State, id: string, known: bool, cutoff: nat)
    requires Valid(s)
    ensures var (r, reply) := Handle(s, Commit(id, known));
            id !in r.uploads && id !in r.files && OthersStay(s, r, id)
              && (reply.Ingested? ==> id in s.files && reply.data == s.files[id])
    ensures var r := Handle(s, Collect(cutoff)).0;
            && (forall x :: x in r.uploads <==> x in s.uploads && s.uploads[x].at >= cutoff) && r.files.Keys == r.uploads.Keys
            && (forall x :: x in r.uploads ==> r.uploads[x] == s.uploads[x] && r.files[x] == s.files[x])
  {
  }

  lemma SliceIs(file: seq<byte>, i: nat)
    requires |file| > 0 && i < ChunkCount(|file|)
    ensures i * CHUNK + Want(|file|, i) <= |file| && Slice(file, i) == file[i * CHUNK..i * CHUNK + Want(|file|, i)]
  {
  }

  /** Writing one chunk changes that chunk only. */
  lemma WriteOne(file: seq<byte>, i: nat, data: seq<byte>, j: nat)
    requires |file| > 0 && i < ChunkCount(|file|) && j < ChunkCount(|file|) && |data| == Want(|file|, i)
    ensures i * CHUNK + |data| <= |file|
    ensures Slice(WriteAt(file, i * CHUNK, data), j) == if i == j then data else Slice(file, j)
  {
    var next := WriteAt(file, i * CHUNK, data);
    SliceIs(file, j);
    SliceIs(next, j);
    if i < j {
      assert (i + 1) * CHUNK <= j * CHUNK;
    } else if j < i {
      assert (j + 1) * CHUNK <= i * CHUNK;
    }
  }

  /** The file of an open upload holds, chunk by chunk, what was stored last, and `got` the chunks that
      were stored at all. */
  lemma {:induction false} FileHoldsLast(run: seq<Op>, id: string, i: nat)
    requires id in After(run).uploads && i < ChunkCount(After(run).uploads[id].size)
    ensures var (s, last) := (After(run), LastStored(run, id, i));
            && (i in s.uploads[id].got <==> last.Some?)
            && (last.Some? ==> Slice(s.files[id], i) == last.value)
  {
    hide Slice, WriteAt, Want, Zeros;
    if run != [] {
      var (front, op) := (run[..|run| - 1], run[|run| - 1]);
      var s := After(front);
      if op.Put? && op.id == id && PutFault(s, id, op.i, op.data).None? {
        FileHoldsLast(front, id, i);
        WriteOne(s.files[id], op.i, op.data.value, i);
      } else if !(op.Begin? && op.id == id && Handle(s, op).1.Opened?) {
        FileHoldsLast(front, id, i);
      }
    }
  }

  lemma {:induction false} FullCount(got: set<nat>, n: nat)
    requires forall i :: i in got ==> i < n
    ensures |got| <= n && (|got| == n <==> forall i :: 0 <= i < n ==> i in got)
  {
    if n > 0 {
      var less := got - {n - 1};
      FullCount(less, n - 1);
      assert got == if n - 1 in got then less + {n - 1} else less;
    } else {
      assert got == {};
    }
  }

  /** The slices of a file in order. */
  function Concat(file: seq<byte>, n: nat): seq<byte> {
    if n == 0 then [] else Concat(file, n - 1) + Slice(file, n - 1)
  }

  /** Reading the first `n` chunks gives the bytes up to the end of chunk `n - 1`. */
  lemma {:induction false} ConcatIs(file: seq<byte>, n: nat)
    ensures Concat(file, n) == if n * CHUNK >= |file| then file else file[..n * CHUNK]
  {
    if n > 0 {
      ConcatIs(file, n - 1);
      assert n * CHUNK == (n - 1) * CHUNK + CHUNK;
    }
  }

  /** Two files whose chunks agree are the same file. */
  lemma {:induction false} SameChunks(a: seq<byte>, b: seq<byte>, n: nat)
    requires forall i :: 0 <= i < n ==> Slice(a, i) == Slice(b, i)
    ensures Concat(a, n) == Concat(b, n)
  {
    if n > 0 {
      SameChunks(a, b, n - 1);
    }
  }

  ghost predicate HeldBy(s: State, id: string, i: nat, last: Option<seq<byte>>)
    requires Valid(s) && id in s.uploads
  {
    (i in s.uploads[id].got <==> last.Some?) && (last.Some? ==> Slice(s.files[id], i) == last.value)
  }

  lemma CommitOn(s: State, id: string, last: seq<Option<seq<byte>>>)
    requires Valid(s) && id in s.uploads && |last| == ChunkCount(s.uploads[id].size)
    requires forall i :: 0 <= i < |last| ==> HeldBy(s, id, i, last[i])
    ensures var reply := Handle(s, Commit(id, true)).1;
            && (reply.Ingested? <==> forall i :: 0 <= i < |last| ==> last[i].Some?)
            && (!reply.Ingested? ==> reply == Refused(Incomplete))
            && (reply.Ingested? ==> |reply.data| == s.uploads[id].size)
            && (reply.Ingested? ==> forall i :: 0 <= i < |last| ==> Some(Slice(reply.data, i)) == last[i])
  {
    hide Slice;
    var got := s.uploads[id].got;
    assert Fine(s.uploads[id], s.files[id]);
    FullCount(got, |last|);
    assert forall i :: 0 <= i < |last| ==> (i in got <==> last[i].Some?);
  }

  /** In every run: a commit for a known bot succeeds exactly when every chunk was stored; it then hands
      on a file of the announced size whose chunks are the ones stored last. */
  lemma CommitGivesLastStored(run: seq<Op>, id: string)
    requires id in After(run).uploads
    ensures var (s, reply) := (After(run), Handle(After(run), Commit(id, true)).1);
            var n := ChunkCount(s.uploads[id].size);
            && (reply.Ingested? <==> forall i :: 0 <= i < n ==> LastStored(run, id, i).Some?)
            && (!reply.Ingested? ==> reply == Refused(Incomplete))
            && (reply.Ingested? ==> |reply.data| == s.uploads[id].size)
            && (reply.Ingested? ==> forall i :: 0 <= i < n ==> Some(Slice(reply.data, i)) == LastStored(run, id, i))
  {
    hide Handle, Slice, Valid;
    var s := After(run);
    var n := ChunkCount(s.uploads[id].size);
    var last := seq(n, i requires 0 <= i < n => LastStored(run, id, i));
    forall i | 0 <= i < n ensures HeldBy(s, id, i, last[i]) {
      FileHoldsLast(run, id, i);
    }
    CommitOn(s, id, last);
    var reply := Handle(s, Commit(id, true)).1;
    if reply.Ingested? {
      forall i | 0 <= i < n ensures Some(Slice(reply.data, i)) == LastStored(run, id, i) {
        assert last[i].Some?;
      }
    } else {
      var i :| 0 <= i < n && last[i].None?;
      assert LastStored(run, id, i).None?;
    }
  }

  // ----- reading a file back -----

  /** `rpcGetChunk`: the recorded size decides which indices exist, the file what they hold. */
  function GetChunk(size: int, file: Option<seq<byte>>, i: int): Option<seq<byte>> {
    if i < 0 || i >= ChunkCount(size) || file.None? then None else Some(Slice(file.value, i))
  }

  /** Reads chunk after chunk until they are all there. */
  method ReadAll(size: int, file: seq<byte>) returns (data: seq<byte>)
    ensures data == file <==> |file| <= ChunkCount(size) * CHUNK
    ensures data <= file
  {
    data := [];
    var i := 0;
    while i < ChunkCount(size)
      invariant i <= ChunkCount(size) && data == Concat(file, i)
    {
      data := data + GetChunk(size, Some(file), i).value;
      i := i + 1;
    }
    ConcatIs(file, i);
  }

  /** A client that stores the chunks `GetChunk` cuts from a file, in any order and any number of times,
      has that very file handed on. */
  lemma UploadReassembles(run: seq<Op>, id: string, file: seq<byte>)
    requires id in After(run).uploads && After(run).uploads[id].size == |file|
    requires forall i :: 0 <= i < ChunkCount(|file|) ==> LastStored(run, id, i) == GetChunk(|file|, Some(file), i)
    ensures Handle(After(run), Commit(id, true)).1 == Ingested(file)
  {
    hide After, LastStored, Handle, Slice;
    CommitGivesLastStored(run, id);
    var n := ChunkCount(|file|);
    var data := Handle(After(run), Commit(id, true)).1.data;
    forall i | 0 <= i < n ensures Slice(data, i) == Slice(file, i) {
      assert Some(Slice(data, i)) == LastStored(run, id, i);
    }
    SameChunks(data, file, n);
    ConcatIs(data, n);
    ConcatIs(file, n);
    assert n * CHUNK >= |file|;
  }
}
