/** The TCP socket behind a verification session, seen as the stream of
    events it delivers to the session's handlers. The socket itself (node's
    `net` module, the encoding, the 10-second inactivity timer) is foreign;
    only what the handlers observe is kept. */
module Socket {

  datatype Event =
    | Connect             // the connection is established ('connect')
    | Data(chunk: string) // one chunk of server text ('data')
    | Error               // a socket error ('error')
    | Timeout             // the inactivity timer fired ('timeout')
    | Close               // the socket closed ('close')
    | Ended               // the socket stopped accepting writes (its `writable` flag dropped)
    | Destroyed           // the socket was destroyed by the runtime (`destroyed` set, no longer writable)

  /** Number of `Data` events in `evs`. */
  function DataCount(evs: seq<Event>): nat
    decreases |evs|
  {
    if evs == [] then 0 else (if evs[0].Data? then 1 else 0) + DataCount(evs[1..])
  }

  /** Number of times `line` occurs in the log `log`. */
  function Occurrences(log: seq<string>, line: string): nat
    decreases |log|
  {
    if log == [] then 0 else (if log[0] == line then 1 else 0) + Occurrences(log[1..], line)
  }

  lemma {:induction false} OccurrencesAppend(log: seq<string>, x: string, line: string)
    ensures Occurrences(log + [x], line) == Occurrences(log, line) + (if x == line then 1 else 0)
    decreases |log|
  {
    if log == [] {
      assert log + [x] == [x];
    } else {
      assert (log + [x])[1..] == log[1..] + [x];
      OccurrencesAppend(log[1..], x, line);
    }
  }
}
