/**
 The capturing response writer installed on a cache miss: every body the
 downstream handler passes to `Write` is passed on to the real writer, and
 copied into a buffer only when that write succeeded.
 */
module Capture {
  import opened Basics

  /** What the real writer's Write answered: bytes written, and whether it
      returned an error. */
  datatype WriteResult = WriteResult(n: int, failed: bool)

  /** The capturing writer; only its buffer matters to the cache. */
  datatype Wrapped = Wrapped(body: Bytes)

  /** One downstream write: the body offered and the real writer's answer. */
  datatype Attempt = Attempt(body: Bytes, result: WriteResult)

  /** wrappedWriter.Write: the caller sees the real writer's answer unchanged;
      the body is buffered after what is already there exactly when that
      answer carries no error. */
  function Write(rw: Wrapped, body: Bytes, down: WriteResult): (r: (Wrapped, WriteResult))
    ensures r.1 == down
    ensures !down.failed ==> r.0.body == rw.body + body
    ensures down.failed ==> r.0 == rw
  {
    if down.failed then (rw, down)
    else (Wrapped(rw.body + body), down)
  }

  /** The writer after a sequence of downstream writes, one call at a time. */
  function WriteAll(rw: Wrapped, attempts: seq<Attempt>): Wrapped
    decreases |attempts|
  {
    if |attempts| == 0 then rw
    else WriteAll(Write(rw, attempts[0].body, attempts[0].result).0, attempts[1..])
  }

  /** Reference: the bodies of the successful attempts, in order. */
  function Succeeded(attempts: seq<Attempt>): Bytes
  {
    if |attempts| == 0 then []
    else (if attempts[0].result.failed then [] else attempts[0].body) + Succeeded(attempts[1..])
  }

  /** The captured body is what was already buffered followed by exactly the
      successful writes, in order; failed writes leave no trace. */
  lemma {:induction false} WriteAllBuffersSucceeded(rw: Wrapped, attempts: seq<Attempt>)
    ensures WriteAll(rw, attempts).body == rw.body + Succeeded(attempts)
    decreases |attempts|
  {
    if |attempts| > 0 {
      var next := Write(rw, attempts[0].body, attempts[0].result).0;
      WriteAllBuffersSucceeded(next, attempts[1..]);
    }
  }

  /** A fresh writer captures the successful writes and nothing else. */
  lemma CapturedBody(attempts: seq<Attempt>)
    ensures WriteAll(Wrapped([]), attempts).body == Succeeded(attempts)
  {
    WriteAllBuffersSucceeded(Wrapped([]), attempts);
  }
}
