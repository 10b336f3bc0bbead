/**
 * The pure computations of the multipart upload client
 * (client/src/Multipart.js): how a file is cut into parts, and the
 * completion manifest built from the parts' ETags.
 */
module Chunking {

  /** `CHUNK_SIZE`: 25 MB, counted in decimal megabytes. */
  const ChunkSize: nat := 25 * 1000000

  /** A byte range `[start, end)` of the file, as `file.slice` takes it. */
  datatype Range = Range(start: nat, end: nat)
  {
    function Length(): nat
      requires start <= end
    {
      end - start
    }

    predicate Contains(b: nat)
    {
      start <= b < end
    }
  }

  /** `CHUNKS_COUNT = Math.floor(file.size / CHUNK_SIZE) + 1`. */
  function PartCount(size: nat): nat
  {
    size / ChunkSize + 1
  }

  /**
   * `blobArray`: part `i` is `file.slice(i * C, (i + 1) * C)`, except the
   * last, which is `file.slice(i * C)` and so runs to the end of the file.
   */
  function Chunks(size: nat): (parts: seq<Range>)
    ensures |parts| == PartCount(size)
  {
    var n := PartCount(size);
    seq(n, i requires 0 <= i < n =>
      if i + 1 < n then Range(i * ChunkSize, (i + 1) * ChunkSize)
      else Range(i * ChunkSize, size))
  }

  /**
   * The parts cut `[0, size)` in order: the first starts at 0, each starts
   * where the previous ended, every part but the last is exactly one chunk
   * long, and the last ends at `size` with length `size % ChunkSize` (so it
   * is empty exactly when the size is a multiple of the chunk size).
   */
  lemma ChunksPartition(size: nat)
    ensures var parts := Chunks(size);
      && parts[0].start == 0
      && parts[|parts| - 1].end == size
      && (forall i :: 0 <= i < |parts| ==> parts[i].start <= parts[i].end)
      && (forall i :: 0 <= i < |parts| - 1 ==> parts[i].end == parts[i + 1].start)
      && (forall i :: 0 <= i < |parts| - 1 ==> parts[i].Length() == ChunkSize)
      && parts[|parts| - 1].Length() == size % ChunkSize
      && (parts[|parts| - 1].Length() == 0 <==> size % ChunkSize == 0)
  {
    var parts := Chunks(size);
    var n := |parts|;
    var last := (n - 1) * ChunkSize;
    assert last == (size / ChunkSize) * ChunkSize;
    assert size == (size / ChunkSize) * ChunkSize + size % ChunkSize;
    assert parts[n - 1] == Range(last, size);
  }

  /** Every byte of the file lies in exactly one part: the one numbered `b / ChunkSize`. */
  lemma ByteInExactlyOnePart(size: nat, b: nat)
    requires b < size
    ensures var parts := Chunks(size);
      && b / ChunkSize < |parts|
      && parts[b / ChunkSize].Contains(b)
      && forall j :: 0 <= j < |parts| && parts[j].Contains(b) ==> j == b / ChunkSize
  {
    var parts := Chunks(size);
    var n := |parts|;
    var k := b / ChunkSize;
    assert k <= size / ChunkSize;
    assert k * ChunkSize <= b < (k + 1) * ChunkSize;
    forall j | 0 <= j < n && parts[j].Contains(b)
      ensures j == k
    {
      assert j * ChunkSize <= b;
      if j + 1 < n {
        assert b < (j + 1) * ChunkSize;
      } else {
        assert j == size / ChunkSize;
      }
    }
  }

  /**
   * The part count is one more than the whole chunks in the file, which is
   * one more than `ceil(size / ChunkSize)` when the size is a multiple of the
   * chunk size (and 1 for an empty file).
   */
  lemma PartCountAgainstCeiling(size: nat)
    ensures size % ChunkSize == 0 ==> PartCount(size) == (size + ChunkSize - 1) / ChunkSize + 1
    ensures size % ChunkSize != 0 ==> PartCount(size) == (size + ChunkSize - 1) / ChunkSize
  {
  }

  /** One entry of the completion manifest: `{ ETag, PartNumber }`. */
  datatype ManifestEntry = ManifestEntry(etag: string, partNumber: nat)

  /** `uploadPartsArray`: the ETag of each part's reply, numbered from 1 in part order. */
  function Manifest(etags: seq<string>): (m: seq<ManifestEntry>)
    ensures |m| == |etags|
    ensures forall i :: 0 <= i < |m| ==> m[i].partNumber == i + 1 && m[i].etag == etags[i]
  {
    seq(|etags|, i requires 0 <= i < |etags| => ManifestEntry(etags[i], i + 1))
  }

  /** `uploadPartsArray.every(item => item?.ETag && item?.PartNumber)`. */
  predicate ManifestReady(m: seq<ManifestEntry>)
  {
    forall i :: 0 <= i < |m| ==> m[i].etag != "" && m[i].partNumber != 0
  }

  /** The ETags of a manifest, in order. */
  function Etags(m: seq<ManifestEntry>): (etags: seq<string>)
    ensures |etags| == |m|
  {
    seq(|m|, i requires 0 <= i < |m| => m[i].etag)
  }

  /**
   * A manifest lists the parts in strictly ascending order, its ETags read
   * back as the replies' ETags, and it is complete exactly when every
   * reply carried an ETag.
   */
  lemma ManifestProperties(etags: seq<string>)
    ensures var m := Manifest(etags);
      && (forall i, j :: 0 <= i < j < |m| ==> m[i].partNumber < m[j].partNumber)
      && Etags(m) == etags
      && (ManifestReady(m) <==> forall i :: 0 <= i < |etags| ==> etags[i] != "")
  {
  }
}
