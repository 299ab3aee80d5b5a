/** The callback protocol of `Callback` (lines 389-415): the eight hooks and their
    arguments, and the events a run leaves behind. */
module Hooks {
  import opened Batches

  /** One hook call with the arguments the trainer passes. The batch hooks carry the
      batch size and, for the `*_end` hooks, what the opaque model reported. */
  datatype Hook =
    | TrainBegin(nEpochs: int)
    | TrainEnd(nEpochs: int)
    | EpochBegin(epoch: int)
    | EpochEnd(epoch: int)
    | BatchBegin(epoch: int, batch: nat, size: nat)
    | BatchEnd(epoch: int, batch: nat, size: nat, out: TrainOut)
    | VBatchBegin(epoch: int, batch: nat, size: nat)
    | VBatchEnd(epoch: int, batch: nat, size: nat, vout: ValidOut)
  {
    /** Whether the hook belongs to one epoch (all but the two training-wide hooks). */
    predicate InEpoch() {
      !(TrainBegin? || TrainEnd?)
    }
  }

  /** Callback number `cb` (its position in the registration list) received `hook`. */
  datatype Event = Fired(cb: nat, hook: Hook)

  /** `hook` delivered to callbacks `0 .. n-1`, in registration order. */
  function Broadcast(n: nat, hook: Hook): (r: seq<Event>)
    ensures |r| == n
    ensures forall i :: 0 <= i < n ==> r[i] == Fired(i, hook)
  {
    seq(n, i requires 0 <= i < n => Fired(i, hook))
  }
}
