/** How many waiting wrappers one drain moves to the scheduler. */
module Admission {

  function Min(a: int, b: int): int {
    if a <= b then a else b
  }

  /** The number of wrappers `consumeAvailable` dispatches from a queue of
      `queued` wrappers when `running` slots of `maxConcurrency` are taken: it
      takes a slot and pops the head until the queue is empty or no slot is free. */
  function DrainCount(queued: nat, running: int, maxConcurrency: nat): (k: nat)
    ensures k <= queued
    ensures running <= maxConcurrency ==> running + k <= maxConcurrency
    ensures k < queued ==> running + k >= maxConcurrency
    decreases queued
  {
    if queued == 0 || running >= maxConcurrency then 0
    else 1 + DrainCount(queued - 1, running + 1, maxConcurrency)
  }

  /** A drain dispatches as many wrappers as there are free slots, or the whole queue. */
  lemma {:induction false} DrainCountIsMin(queued: nat, running: int, maxConcurrency: nat)
    requires running <= maxConcurrency
    ensures DrainCount(queued, running, maxConcurrency) == Min(queued, maxConcurrency - running)
  {
    if queued > 0 && running < maxConcurrency {
      DrainCountIsMin(queued - 1, running + 1, maxConcurrency);
    }
  }

  /** After one slot is released from a full limiter, exactly one waiting
      wrapper (if any) is dispatched. */
  lemma ReleaseDrainsOne(queued: nat, maxConcurrency: nat)
    requires maxConcurrency > 0
    ensures DrainCount(queued, maxConcurrency - 1, maxConcurrency) == Min(queued, 1)
  {
    DrainCountIsMin(queued, maxConcurrency - 1, maxConcurrency);
  }
}
