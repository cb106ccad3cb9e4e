/** First-in first-out store buffers over any shared state: a thread sees memory with its own buffered stores done. */
module StoreBuffer {
  import opened Mem

  /** The shared state after the buffered stores have reached it, oldest first. */
  function Seen<S, T>(reach: (S, T) -> S, sh: S, buf: seq<T>): S
    decreases |buf|
  {
    if buf == [] then sh else Seen(reach, reach(sh, buf[0]), buf[1..])
  }

  lemma {:induction false} SeenPush<S, T>(reach: (S, T) -> S, sh: S, buf: seq<T>, st: T)
    ensures Seen(reach, sh, buf + [st]) == reach(Seen(reach, sh, buf), st)
    decreases |buf|
  {
    if buf == [] {
      assert Seen(reach, reach(sh, st), []) == reach(sh, st);
    } else {
      SeenPush(reach, reach(sh, buf[0]), buf[1..], st);
      assert (buf + [st])[1..] == buf[1..] + [st];
    }
  }
}
