/** Names shared by every module: identifiers, results and the service errors. */
module Types {

  /** Row ids, tokens and user ids; the generator that makes them never repeats one. */
  type Id = nat

  /** The gap the services leave between consecutive rows (ORDER_STEP). */
  const ORDER_STEP: real := 1000.0

  datatype Option<+T> = None | Some(value: T) {

    function GetOr(default: T): T {
      if Some? then value else default
    }
  }

  /**
   * The exceptions the services throw. `Constraint` is an error raised by the database itself;
   * `Impossible` marks an answer that the database or the id generator cannot give.
   */
  datatype Error = NotFound | BadRequest | Forbidden | Conflict | Unauthorized | Constraint | Impossible

  datatype Result<+T> = Ok(value: T) | Err(error: Error) {

    function GetOr(default: T): T {
      if Ok? then value else default
    }

    predicate IsFailure() {
      Err?
    }

    function PropagateFailure<U>(): Result<U>
      requires Err?
    {
      Err(error)
    }

    function Extract(): T
      requires Ok?
    {
      value
    }
  }

  /** Lookup of a row by primary key (findUnique). */
  function Find<K, V>(m: map<K, V>, k: K): Option<V> {
    if k in m then Some(m[k]) else None
  }
}
