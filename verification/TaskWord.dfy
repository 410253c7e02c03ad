/** How the state of a task is packed into one machine word: eight flag bits below the reference count. */
module TaskWord {
  import opened TaskProtocol

  const REFERENCE: int := 256

  /** One more bit at the low end. */
  function Push(b: bool, rest: int): int {
    (if b then 1 else 0) + 2 * rest
  }

  function Low(w: Word): int {
    Push(w.task, Push(w.awaiter, Push(w.registering, Push(w.notifying, w.refs))))
  }

  /** SCHEDULED is bit 0, NOTIFYING bit 7, and the reference count starts at bit 8. */
  function Pack(w: Word): int {
    Push(w.scheduled, Push(w.running, Push(w.completed, Push(w.closed, Low(w)))))
  }

  lemma PushIsInjective(a: bool, x: int, b: bool, y: int)
    ensures Push(a, x) == Push(b, y) <==> a == b && x == y
  {
  }

  lemma LowIsInjective(w: Word, v: Word)
    ensures Low(w) == Low(v) <==>
            w.task == v.task && w.awaiter == v.awaiter && w.registering == v.registering && w.notifying == v.notifying && w.refs == v.refs
  {
    PushIsInjective(w.notifying, w.refs, v.notifying, v.refs);
    var (a, b) := (Push(w.notifying, w.refs), Push(v.notifying, v.refs));
    PushIsInjective(w.registering, a, v.registering, b);
    var (c, d) := (Push(w.registering, a), Push(v.registering, b));
    PushIsInjective(w.awaiter, c, v.awaiter, d);
    PushIsInjective(w.task, Push(w.awaiter, c), v.task, Push(v.awaiter, d));
  }

  /** Comparing machine words is comparing states, and adding REFERENCE adds one to the count. */
  lemma PackingIsFaithful(w: Word, v: Word)
    ensures Pack(w) == Pack(v) <==> w == v
    ensures Pack(w.(refs := w.refs + 1)) == Pack(w) + REFERENCE
  {
    LowIsInjective(w, v);
    PushIsInjective(w.closed, Low(w), v.closed, Low(v));
    var (a, b) := (Push(w.closed, Low(w)), Push(v.closed, Low(v)));
    PushIsInjective(w.completed, a, v.completed, b);
    var (c, d) := (Push(w.completed, a), Push(v.completed, b));
    PushIsInjective(w.running, c, v.running, d);
    PushIsInjective(w.scheduled, Push(w.running, c), v.scheduled, Push(v.running, d));
  }
}
