// The analysis queue of src/hooks/audioAnalysis/queueManager.ts: the
// queued songs, the processing flag and the progress counter, as state
// the hook's callbacks update.

module QueueManager {
  import opened Songs

  /** How far the queue has got: song `current` of `total`. */
  datatype AnalysisProgress = AnalysisProgress(current: int, total: int)

  class Queue {
    var analysisQueue: seq<Song>
    var isProcessingQueue: bool
    var analysisProgress: AnalysisProgress

    /** The initial state: an empty queue, not processing, progress 0 of 0. */
    constructor ()
      ensures analysisQueue == [] && !isProcessingQueue && analysisProgress == AnalysisProgress(0, 0)
    {
      analysisQueue := [];
      isProcessingQueue := false;
      analysisProgress := AnalysisProgress(0, 0);
    }

    /** addToQueue: the songs go after the queued ones, both in their order. */
    method AddToQueue(songs: seq<Song>)
      modifies this
      ensures analysisQueue == old(analysisQueue) + songs
      ensures analysisQueue[..|old(analysisQueue)|] == old(analysisQueue)
      ensures analysisQueue[|old(analysisQueue)|..] == songs
      ensures isProcessingQueue == old(isProcessingQueue) && analysisProgress == old(analysisProgress)
    {
      analysisQueue := analysisQueue + songs;
    }

    /**
     * clearQueue: empties the queue and stops processing. The progress is
     * reset only by a timer three seconds later (ResetProgress).
     */
    method ClearQueue()
      modifies this
      ensures analysisQueue == [] && !isProcessingQueue
      ensures analysisProgress == old(analysisProgress)
    {
      analysisQueue := [];
      isProcessingQueue := false;
    }

    /** The timer clearQueue schedules: progress back to 0 of 0. */
    method ResetProgress()
      modifies this
      ensures analysisProgress == AnalysisProgress(0, 0)
      ensures analysisQueue == old(analysisQueue) && isProcessingQueue == old(isProcessingQueue)
    {
      analysisProgress := AnalysisProgress(0, 0);
    }

    /** updateProgress: exactly (current, total), nothing else. */
    method UpdateProgress(current: int, total: int)
      modifies this
      ensures analysisProgress == AnalysisProgress(current, total)
      ensures analysisQueue == old(analysisQueue) && isProcessingQueue == old(isProcessingQueue)
    {
      analysisProgress := AnalysisProgress(current, total);
    }

    /** startProcessing: the flag goes up, nothing else changes. */
    method StartProcessing()
      modifies this
      ensures isProcessingQueue
      ensures analysisQueue == old(analysisQueue) && analysisProgress == old(analysisProgress)
    {
      isProcessingQueue := true;
    }
  }
}
