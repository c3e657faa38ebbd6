/** The host's throwables, as values. A throwable's causal predecessor is a
    component of the value, so every chain is finite by construction. */
module Faults {

  import opened Wrappers

  /** What the renderer can see of one call argument: an array and its element
      count, an object and its class name, or any other value and its type name. */
  datatype Arg = ArrArg(count: nat) | ObjArg(cls: string) | Prim(typeName: string)

  /** One stack frame of a backtrace. Every key of the frame may be absent; an
      absent key and a key holding null are both None. `args` is None when the
      key is absent or holds anything but an array. */
  datatype Frame = Frame(
    file: Option<string>,
    line: Option<int>,
    cls: Option<string>,
    func: Option<string>,
    callType: Option<string>,
    args: Option<seq<Arg>>)

  /** The exception code: an integer, or a string for some PDO-style exceptions. */
  datatype Code = IntCode(i: int) | StrCode(s: string)

  /** A throwable. `cls` is its concrete class name, `traceText` what its
      string-form backtrace reads, `isAssertion` whether it is an instance of
      AssertionError, and `previous` its causal predecessor. */
  datatype Fault = Fault(
    cls: string,
    message: string,
    code: Code,
    file: string,
    line: int,
    trace: seq<Frame>,
    traceText: string,
    isAssertion: bool,
    previous: Option<Fault>)

  /** The fault followed by all of its predecessors, outermost first. */
  function Chain(e: Fault): (c: seq<Fault>)
    ensures |c| >= 1 && c[0] == e
    decreases e
  {
    [e] + if e.previous.Some? then Chain(e.previous.value) else []
  }
}
