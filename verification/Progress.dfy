/** Shared progress counters (pkg/engine/progress.go). */
module Progress {
  import opened Bytes

  /** What `SubBytes` leaves in a counter nobody else touches. */
  function Subtracted(count: int, n: int): int {
    if n > 0 then Max(0, count - n) else count
  }

  /** Where the compare-and-swap loop leaves a counter to which others add between its turns: at the first value
      that is not negative, or at 0 as soon as nobody interferes. */
  function Settled(count: int, others: seq<int>): int
    decreases |others|
  {
    if count >= 0 then count
    else if others == [] || others[0] == 0 then 0
    else Settled(count + others[0], others[1..])
  }

  class ProgressTracker {
    const totalBytes: int
    const totalChunks: int
    var downloadedBytes: int
    var activeWorkers: int
    var completedChunks: int

    constructor (totalBytes: int, totalChunks: int)
      ensures this.totalBytes == totalBytes && this.totalChunks == totalChunks
      ensures downloadedBytes == activeWorkers == completedChunks == 0
    {
      this.totalBytes, this.totalChunks := totalBytes, totalChunks;
      downloadedBytes, activeWorkers, completedChunks := 0, 0, 0;
    }

    method AddBytes(n: int)
      modifies this`downloadedBytes
      ensures downloadedBytes == old(downloadedBytes) + Max(0, n)
    {
      if n > 0 {
        downloadedBytes := downloadedBytes + n;
      }
    }

    /** `others[i]` is what other goroutines add between the i-th load and its compare-and-swap. */
    method SubBytes(n: int, others: seq<int>)
      modifies this`downloadedBytes
      ensures n <= 0 || 0 <= n <= old(downloadedBytes) ==> downloadedBytes == old(downloadedBytes) - Max(0, n)
      ensures others == [] ==> downloadedBytes == Subtracted(old(downloadedBytes), n)
      ensures n > 0 ==> 0 <= downloadedBytes == Settled(old(downloadedBytes) - n, others)
    {
      if n > 0 {
        downloadedBytes := downloadedBytes - n;
        var i := 0;
        while true
          invariant 0 <= i <= |others|
          invariant n <= old(downloadedBytes) || others == [] ==> downloadedBytes == old(downloadedBytes) - n
          invariant Settled(downloadedBytes, others[i..]) == Settled(old(downloadedBytes) - n, others)
          decreases |others| - i
        {
          var curr := downloadedBytes;
          if curr >= 0 {
            break;
          }
          if i < |others| {
            assert others[i..][0] == others[i] && others[i..][1..] == others[i + 1..];
            downloadedBytes := downloadedBytes + others[i];
            i := i + 1;
            if downloadedBytes != curr {
              continue;
            }
          }
          downloadedBytes := 0;
          break;
        }
      }
    }

    method ChunkCompleted()
      modifies this`completedChunks
      ensures completedChunks == old(completedChunks) + 1
    {
      completedChunks := completedChunks + 1;
    }
  }
}
