/** How a step of one of the host's scripts can end, and what becomes of a write. */
module Outcomes {

  datatype Option<+T> = None | Some(value: T) {
    function GetOr(default: T): T {
      if Some? then value else default
    }

    predicate IsFailure() {
      None?
    }

    function PropagateFailure<U>(): Option<U>
      requires None?
    {
      None
    }

    function Extract(): T
      requires Some?
    {
      value
    }
  }

  datatype Result<+T> = Ok(value: T) | Error(reason: string)

  /** `Done` is a normal return and `Raised` an exception the caller may catch.
      `Crashed` is the process dying on the spot: no handler runs, and only what
      was written durably survives. All but `Done` propagate through `:-`. */
  datatype Exec<+T> = Done(value: T) | Raised(error: string) | Crashed {
    predicate IsFailure() {
      !Done?
    }

    function PropagateFailure<U>(): (r: Exec<U>)
      requires IsFailure()
      ensures r.IsFailure() && r.Crashed? == Crashed?
    {
      if Crashed? then Crashed else Raised(error)
    }

    function Extract(): T
      requires Done?
    {
      value
    }

    /** The same ending, without the value. */
    function Ends(): Exec<()> {
      if Done? then Exec.Done(()) else PropagateFailure()
    }
  }

  /** What becomes of a write that replaces a whole file: whether it gets as far as the
      replacement, and how the call ends once it has. */
  datatype Writing = Writing(reached: Exec<()>, returned: Exec<()>) {
    predicate Lands() {
      reached.Done?
    }

    predicate Works() {
      reached.Done? && returned.Done?
    }

    function Result(): Exec<()> {
      if reached.Done? then returned else reached
    }
  }

  function Lookup<K, V>(m: map<K, V>, k: K): Option<V> {
    if k in m then Some(m[k]) else None
  }
}
