/** A large file from the client to one stored object: the server's part geometry and part-number check, the
    client's batching and slicing, and the store's assembly. */
module Multipart {
  import opened Basics
  import opened PartList
  import opened Text
  import T = Transactions
  import InitiateRequest

  type Byte = n: nat | n < 256

  const PART_URL_BATCH: int := 20
  const MAX_PARTS_BATCH: int := 20

  // ---- Geometry ----

  function PartsCount(size: int, partSize: int): int
    requires partSize > 0
  {
    (size + partSize - 1) / partSize
  }

  function Min(a: int, b: int): int {
    if a < b then a else b
  }

  /** The bytes of part `k`. */
  function Slice(file: seq<Byte>, partSize: int, k: int): seq<Byte>
    requires partSize > 0 && 1 <= k <= PartsCount(|file|, partSize)
  {
    PartStarts(|file|, partSize, k);
    file[(k - 1) * partSize..Min((k - 1) * partSize + partSize, |file|)]
  }

  /** Every part begins inside the file, and only the last one may end at its end. */
  lemma PartStarts(size: int, partSize: int, k: int)
    requires partSize > 0 && size >= 0 && 1 <= k <= PartsCount(size, partSize)
    ensures 0 <= (k - 1) * partSize < size
    ensures k < PartsCount(size, partSize) ==> k * partSize < size
    ensures k == PartsCount(size, partSize) ==> size <= k * partSize
  {
    var n := PartsCount(size, partSize);
    assert size + partSize - 1 == n * partSize + (size + partSize - 1) % partSize;
    Scaled(k, n, partSize);
    Scaled(1, k, partSize);
    if k < n {
      Scaled(k + 1, n, partSize);
    }
    assert (k - 1) * partSize == k * partSize - partSize && (k + 1) * partSize == k * partSize + partSize;
  }

  lemma Scaled(a: int, b: int, factor: int)
    requires a <= b && factor >= 0
    ensures a * factor <= b * factor
  {
    assert (b - a) * factor >= 0;
  }

  /** The first `k` parts, one after the other. */
  function Joined(file: seq<Byte>, partSize: int, k: int): seq<Byte>
    requires partSize > 0 && 0 <= k <= PartsCount(|file|, partSize)
  {
    if k == 0 then [] else Joined(file, partSize, k - 1) + Slice(file, partSize, k)
  }

  lemma {:induction false} JoinedIsPrefix(file: seq<Byte>, partSize: int, k: int)
    requires partSize > 0 && 0 <= k <= PartsCount(|file|, partSize)
    ensures 0 <= Min(k * partSize, |file|) && Joined(file, partSize, k) == file[..Min(k * partSize, |file|)]
    decreases k
  {
    if k > 0 {
      JoinedIsPrefix(file, partSize, k - 1);
      PartStarts(|file|, partSize, k);
      assert (k - 1) * partSize + partSize == k * partSize;
      var start := (k - 1) * partSize;
      assert file[..start] + file[start..Min(k * partSize, |file|)] == file[..Min(k * partSize, |file|)];
    }
  }

  /** The slices are not empty, and in order they make up the file again. */
  lemma SlicesRebuildFile(file: seq<Byte>, partSize: int)
    requires partSize > 0
    ensures Joined(file, partSize, PartsCount(|file|, partSize)) == file
    ensures forall k :: 1 <= k <= PartsCount(|file|, partSize) ==> 0 < |Slice(file, partSize, k)| <= partSize
  {
    var n := PartsCount(|file|, partSize);
    CountIsEnough(|file|, partSize);
    JoinedIsPrefix(file, partSize, n);
    assert file[..|file|] == file;
    forall k | 1 <= k <= n
      ensures 0 < |Slice(file, partSize, k)| <= partSize
    {
      PartStarts(|file|, partSize, k);
    }
  }

  lemma CountIsEnough(size: int, partSize: int)
    requires partSize > 0 && size >= 0
    ensures PartsCount(size, partSize) >= 0 && size <= PartsCount(size, partSize) * partSize
  {
    var n := PartsCount(size, partSize);
    assert size + partSize - 1 == n * partSize + (size + partSize - 1) % partSize;
    if n < 0 {
      Scaled(n, -1, partSize);
    }
  }

  // ---- The server's check of requested part numbers ----

  predicate PartNumbersOk(numbers: seq<int>, count: int) {
    && (forall i :: 0 <= i < |numbers| ==> 1 <= numbers[i] <= count)
    && (forall i, j :: 0 <= i < j < |numbers| ==> numbers[i] != numbers[j])
  }

  /** PartURLs for a live multipart upload of `count` parts: one URL per requested number, in the order of the
      request; refused exactly when the batch is empty or too long, or a number is out of range or repeated. */
  method PartUrls(numbers: seq<int>, count: int) returns (urls: Option<seq<int>>)
    ensures urls.Some? <==> 1 <= |numbers| <= MAX_PARTS_BATCH && PartNumbersOk(numbers, count)
    ensures urls.Some? ==> urls.value == numbers
  {
    if |numbers| < 1 || |numbers| > MAX_PARTS_BATCH {
      return None;
    }
    var seen: set<int> := {};
    var granted: seq<int> := [];
    for index := 0 to |numbers|
      invariant granted == numbers[..index]
      invariant forall x :: x in seen <==> x in numbers[..index]
      invariant PartNumbersOk(numbers[..index], count)
    {
      var number := numbers[index];
      if number < 1 || number > count {
        return None;
      }
      if number in seen {
        assert exists i :: 0 <= i < index && numbers[..index][i] == number;
        return None;
      }
      seen := seen + {number};
      granted := granted + [number];
    }
    return Some(granted);
  }

  // ---- The store ----

  datatype StoredPart = StoredPart(bytes: seq<Byte>, etag: string)

  class Store {
    var parts: map<int, StoredPart>
    ghost var sound: bool   // every PUT so far succeeded with an ETag the server accepts

    constructor ()
      ensures parts == map[] && sound
    {
      parts, sound := map[], true;
    }

    /** One PUT of a part, after its retries: it succeeds with an ETag or fails. */
    method Put(number: int, bytes: seq<Byte>, etag: string) returns (answer: Option<string>)
      modifies this
      ensures answer.None? ==> parts == old(parts)
      ensures answer.Some? ==> answer.value == etag && parts == old(parts)[number := StoredPart(bytes, etag)]
      ensures sound <==> old(sound) && answer.Some? && GoodEtag(etag)
    {
      var stored: bool := *;
      sound := sound && stored && GoodEtag(etag);
      if stored {
        parts := parts[number := StoredPart(bytes, etag)];
        return Some(etag);
      }
      return None;
    }
  }

  /** What CompleteMultipart puts together from a part list. */
  function Assemble(parts: map<int, StoredPart>, list: seq<Part>): Option<seq<Byte>> {
    if list == [] then Some([])
    else
      var p := list[|list| - 1];
      var front := Assemble(parts, list[..|list| - 1]);
      if front.Some? && p.number in parts && TrimSpace(parts[p.number].etag) == p.etag
      then Some(front.value + parts[p.number].bytes)
      else None
  }

  // ---- The client ----

  /** The numbers lo, lo + 1, ..., hi - 1. */
  function Range(lo: int, hi: int): (r: seq<int>)
    requires lo <= hi
    ensures |r| == hi - lo && forall i :: 0 <= i < |r| ==> r[i] == lo + i
  {
    seq(hi - lo, i => lo + i)
  }

  ghost function Concat(batches: seq<seq<int>>): seq<int> {
    if batches == [] then [] else Concat(batches[..|batches| - 1]) + batches[|batches| - 1]
  }

  /** Part `k` was stored with the bytes the client cut for it and the ETag it noted. */
  ghost predicate PartSent(file: seq<Byte>, partSize: int, parts: map<int, StoredPart>, list: seq<Part>, k: int)
    requires partSize > 0 && 1 <= k <= |list| && k <= PartsCount(|file|, partSize)
  {
    && list[k - 1].number == k
    && k in parts && parts[k] == StoredPart(Slice(file, partSize, k), list[k - 1].etag)
    && list[k - 1].etag != ""
  }

  /** Sending the next part leaves the earlier ones as they were. */
  lemma SentGrows(file: seq<Byte>, partSize: int, parts: map<int, StoredPart>, list: seq<Part>, etag: string,
                  parts': map<int, StoredPart>)
    requires partSize > 0 && |list| + 1 <= PartsCount(|file|, partSize) && etag != ""
    requires forall k :: 1 <= k <= |list| ==> PartSent(file, partSize, parts, list, k)
    requires parts' == parts[|list| + 1 := StoredPart(Slice(file, partSize, |list| + 1), etag)]
    ensures
      var list' := list + [Part(|list| + 1, etag)];
      forall k :: 1 <= k <= |list'| ==> PartSent(file, partSize, parts', list', k)
  {
    var list' := list + [Part(|list| + 1, etag)];
    hide Slice, PartsCount;
    forall k | 1 <= k <= |list'|
      ensures PartSent(file, partSize, parts', list', k)
    {
      if k <= |list| {
        assert PartSent(file, partSize, parts, list, k);
        assert list'[k - 1] == list[k - 1];
      }
    }
  }

  lemma EmptyEtag()
    ensures !GoodEtag("")
  {
  }

  predicate GoodEtags(list: seq<Part>) {
    forall i :: 0 <= i < |list| ==> GoodEtag(list[i].etag)
  }

  class Client {
    const store: Store

    constructor (store: Store)
      ensures this.store == store
    {
      this.store := store;
    }

    /** The inner loop of uploadMultipart: send the parts of one batch. */
    method SendBatch(file: seq<Byte>, partSize: int, numbers: seq<int>, done: seq<Part>) returns (list: Option<seq<Part>>)
      requires partSize > 0 && numbers == Range(|done| + 1, |done| + 1 + |numbers|)
      requires |done| + |numbers| <= PartsCount(|file|, partSize)
      requires forall k :: 1 <= k <= |done| ==> PartSent(file, partSize, store.parts, done, k)
      modifies store
      ensures list.Some? ==>
        && |list.value| == |done| + |numbers|
        && forall k :: 1 <= k <= |list.value| ==> PartSent(file, partSize, store.parts, list.value, k)
      ensures store.sound ==> old(store.sound) && list.Some? && (GoodEtags(done) ==> GoodEtags(list.value))
    {
      var completed := done;
      for index := 0 to |numbers|
        invariant |completed| == |done| + index
        invariant store.sound ==> old(store.sound) && (GoodEtags(done) ==> GoodEtags(completed))
        invariant forall k :: 1 <= k <= |completed| ==> PartSent(file, partSize, store.parts, completed, k)
      {
        var number := numbers[index];
        PartStarts(|file|, partSize, number);
        var start := (number - 1) * partSize;
        var chunk := file[start..Min(start + partSize, |file|)];
        var etag: string := *;
        ghost var before := store.parts;
        assert chunk == Slice(file, partSize, number);
        hide Slice, PartsCount, PartSent;
        var answer := store.Put(number, chunk, etag);
        if answer.None? || answer.value == "" {
          EmptyEtag();
          return None;
        }
        SentGrows(file, partSize, before, completed, answer.value, store.parts);
        completed := completed + [Part(number, answer.value)];
      }
      return Some(completed);
    }

    /** uploadMultipart up to the call of complete. The batches it asks for are ones the server accepts, together
        they name each part once and in order, and when nothing failed every part is stored with its slice. */
    method UploadMultipart(file: seq<Byte>, partSize: int, partsCount: int)
      returns (list: Option<seq<Part>>, ghost batches: seq<seq<int>>)
      requires partSize > 0 && partsCount == PartsCount(|file|, partSize)
      modifies store
      ensures forall i :: 0 <= i < |batches| ==>
        1 <= |batches[i]| <= MAX_PARTS_BATCH && PartNumbersOk(batches[i], partsCount)
      ensures list.Some? ==>
        && |list.value| == partsCount
        && Concat(batches) == Range(1, partsCount + 1)
        && forall k :: 1 <= k <= partsCount ==> PartSent(file, partSize, store.parts, list.value, k)
      ensures store.sound ==> list.Some? && GoodEtags(list.value)
    {
      CountIsEnough(|file|, partSize);
      batches := [];
      var completed: seq<Part> := [];
      var offset := 1;
      while offset <= partsCount
        invariant 1 <= offset
        invariant |completed| == Min(offset - 1, partsCount)
        invariant store.sound ==> GoodEtags(completed)
        invariant Concat(batches) == Range(1, |completed| + 1)
        invariant forall i :: 0 <= i < |batches| ==>
          1 <= |batches[i]| <= MAX_PARTS_BATCH && PartNumbersOk(batches[i], partsCount)
        invariant forall k :: 1 <= k <= |completed| ==> PartSent(file, partSize, store.parts, completed, k)
        decreases partsCount - offset
      {
        var numbers := Range(offset, offset + Min(PART_URL_BATCH, partsCount - offset + 1));
        var granted := PartUrls(numbers, partsCount);
        ghost var earlier := batches;
        batches := batches + [numbers];
        assert batches[..|batches| - 1] == earlier;
        var sent := SendBatch(file, partSize, granted.value, completed);
        if sent.None? {
          return None, batches;
        }
        completed := sent.value;
        offset := offset + PART_URL_BATCH;
      }
      return Some(completed), batches;
    }
  }

  // ---- End to end ----

  lemma PairedEtag(list: seq<Part>, result: seq<Part>, k: int)
    requires Paired(list, result) && 1 <= k <= |list|
    requires forall i :: 0 <= i < |list| ==> list[i].number == i + 1
    ensures result[k - 1] == Part(k, TrimSpace(list[k - 1].etag))
  {
    assert result[k - 1].number == k;
    assert HasEtag(list, k, result[k - 1].etag);
    var e :| Part(k, e) in list && result[k - 1].etag == TrimSpace(e);
    var i :| 0 <= i < |list| && list[i] == Part(k, e);
    assert i == k - 1;
  }

  /** The list the server hands to the store assembles to the file. */
  lemma {:induction false} AssembledPrefix(file: seq<Byte>, partSize: int, parts: map<int, StoredPart>,
                                           list: seq<Part>, result: seq<Part>, k: int)
    requires partSize > 0 && |list| == |result| == PartsCount(|file|, partSize) && 0 <= k <= |list|
    requires forall i :: 1 <= i <= |list| ==> PartSent(file, partSize, parts, list, i)
    requires Paired(list, result)
    ensures Assemble(parts, result[..k]) == Some(Joined(file, partSize, k))
    decreases k
  {
    hide Slice, PartsCount, Paired;
    if k > 0 {
      AssembledPrefix(file, partSize, parts, list, result, k - 1);
      assert result[..k][..k - 1] == result[..k - 1];
      forall i | 0 <= i < |list|
        ensures list[i].number == i + 1
      {
        assert PartSent(file, partSize, parts, list, i + 1);
      }
      PairedEtag(list, result, k);
      assert PartSent(file, partSize, parts, list, k);
    }
  }

  /** The server's half of complete, for a client that sent every part: it accepts unless an ETag is unusable,
      and then the store assembles exactly the file, so the size check passes. */
  method FinishUpload(store: Store, file: seq<Byte>, partSize: int, list: seq<Part>) returns (assembled: Option<seq<Byte>>)
    requires partSize > 0 && |list| == PartsCount(|file|, partSize)
    requires forall k :: 1 <= k <= |list| ==> PartSent(file, partSize, store.parts, list, k)
    ensures assembled.Some? <==> GoodEtags(list)
    ensures assembled.Some? ==> assembled.value == file
  {
    var parts := new Part[|list|](i requires 0 <= i < |list| => list[i]);
    assert parts[..] == list;
    SentIsComplete(file, partSize, store.parts, list);
    var checked := ValidateCompletedParts(parts, Some(|list|));
    if checked.None? {
      return None;
    }
    AssembledPrefix(file, partSize, store.parts, list, checked.value, |list|);
    SlicesRebuildFile(file, partSize);
    assert checked.value[..|list|] == checked.value;
    return Assemble(store.parts, checked.value);
  }

  lemma SentIsComplete(file: seq<Byte>, partSize: int, parts: map<int, StoredPart>, list: seq<Part>)
    requires partSize > 0 && |list| == PartsCount(|file|, partSize)
    requires forall k :: 1 <= k <= |list| ==> PartSent(file, partSize, parts, list, k)
    ensures Complete(list, |list|) <==> forall i :: 0 <= i < |list| ==> GoodEtag(list[i].etag)
  {
    forall i | 0 <= i < |list|
      ensures list[i].number == i + 1
    {
      assert PartSent(file, partSize, parts, list, i + 1);
    }
    if forall i :: 0 <= i < |list| ==> GoodEtag(list[i].etag) {
      CountingIsComplete(list);
    }
  }

  /** uploadFile for a file of any size above the threshold: what ends up in the store is the file, and unless the
      store failed a part or gave it an unusable ETag, it does end up there. */
  method UploadFile(client: Client, file: seq<Byte>, partSize: int) returns (stored: Option<seq<Byte>>)
    requires partSize > 0
    modifies client.store
    ensures stored.Some? ==> stored.value == file
    ensures client.store.sound ==> stored.Some?
  {
    var count := PartsCount(|file|, partSize);
    var list, batches := client.UploadMultipart(file, partSize, count);
    if list.None? {
      return None;
    }
    stored := FinishUpload(client.store, file, partSize, list.value);
  }

  /** Every size above the threshold that validation lets through gives between 7 and 128 parts. */
  lemma PartCountsInService(size: int)
    requires T.MULTIPART_THRESHOLD < size <= InitiateRequest.MAX_VIDEO_SIZE
    ensures 7 <= PartsCount(size, T.MULTIPART_PART_SIZE) <= 128
    ensures T.KindFor(size, 0).partsCount == PartsCount(size, T.MULTIPART_PART_SIZE)
  {
  }
}
