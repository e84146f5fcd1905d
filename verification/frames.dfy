/** What one run of the per-frame `detectAndDraw` callback can end with. */
module Frames {

  /** How a tick ended.
      Halted: returned without asking for another frame (the loop ends);
      Throttled: too soon after the last sample, only another frame was requested;
      NotReady: video paused or ended, or no pose model yet, only another frame was requested;
      Sampled: the pose estimator was invoked, then another frame was requested. */
  datatype Tick = Halted | Throttled | NotReady | Sampled

  /** The tick asked the browser for another animation frame. */
  predicate Reschedules(t: Tick)
  {
    !t.Halted?
  }

  /** What the (external, asynchronous) pose estimator delivered: a value, or a rejected promise. */
  datatype Estimation<T> = Estimated(value: T) | EstimationFailed
}
