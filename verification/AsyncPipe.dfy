// The unbounded pipe (util/async_pipe.go): writers append under a lock and post a one-slot
// signal; the reader retries and waits on the signal.

module AsyncPipe {

  newtype byte = x: int | 0 <= x < 256

  /** What other goroutines do to the pipe. */
  datatype Step = Writes(data: seq<byte>) | Closes

  class Pipe {
    var buf: seq<byte>
    var closed: bool
    var signal: bool
    ghost var accepted: seq<byte>
    ghost var delivered: seq<byte>
    /** The one reader saw nothing to read and has not yet taken a signal since. */
    ghost var waiting: bool

    /** Nothing is lost, and a reader about to wait has its wake-up if there is something to
        wake up for. */
    ghost predicate Valid()
      reads this
    {
      accepted == delivered + buf && (waiting && (buf != [] || closed) ==> signal)
    }

    constructor ()
      ensures Valid() && accepted == [] && !closed
    {
      buf, closed, signal, accepted, delivered, waiting := [], false, false, [], [], false;
    }

    method SignalRead()
      modifies this`signal
      ensures signal
    {
      if !signal { signal := true; }
    }

    method Close()
      requires Valid()
      modifies this`closed, this`signal
      ensures Valid() && closed && signal
    {
      closed := true;
      SignalRead();
    }

    method Write(data: seq<byte>) returns (n: nat, eof: bool)
      requires Valid()
      modifies this`buf, this`signal, this`accepted
      ensures Valid() && (eof <==> closed) && n == (if eof then 0 else |data|)
      ensures buf == (if eof then old(buf) else old(buf) + data)
      ensures accepted == (if eof then old(accepted) else old(accepted) + data) && (!eof ==> signal)
    {
      if closed { return 0, true; }
      buf, accepted := buf + data, accepted + data;
      SignalRead();
      return |data|, false;
    }

    /** cap is the length of the caller's buffer. */
    method ReadNonblocking(cap: nat) returns (out: seq<byte>, eof: bool)
      requires Valid()
      modifies this`buf, this`delivered, this`waiting
      ensures Valid() && |out| <= cap && delivered == old(delivered) + out
      ensures eof <==> closed && (old(buf) == [] || cap == 0)
      ensures out == [] <==> old(buf) == [] || cap == 0
      ensures waiting <==> out == [] && !eof && cap > 0
    {
      var n := if cap < |buf| then cap else |buf|;
      out, eof := [], false;
      if n > 0 {
        out, buf := buf[..n], buf[n..];
        delivered := delivered + out;
        waiting := false;
        return;
      }
      eof := closed;
      waiting := !eof && cap > 0;
    }

    method Others(step: Step)
      requires Valid()
      modifies this`buf, this`closed, this`signal, this`accepted
      ensures Valid()
      ensures old(closed) ==> closed
      ensures buf == if step.Writes? && !old(closed) then old(buf) + step.data else old(buf)
      ensures closed == (old(closed) || step.Closes?)
    {
      match step
      case Writes(data) => var _, _ := Write(data);
      case Closes => Close();
    }

    /** A blocking read while others run env, in order; any of it may run between a failed
        attempt and the wait, or while waiting. `blocked` is the read still waiting when they
        are done: then there was nothing to wake it up for. */
    method Read(cap: nat, env: seq<Step>) returns (out: seq<byte>, eof: bool, blocked: bool, rest: seq<Step>)
      requires Valid() && cap > 0
      modifies this
      ensures Valid() && delivered == old(delivered) + out && |out| <= cap
      ensures |rest| <= |env| && rest == env[|env| - |rest|..]
      ensures !blocked ==> out != [] || eof
      ensures eof ==> closed && out == [] && delivered == accepted
      ensures blocked ==> out == [] && !eof && rest == [] && buf == [] && !closed
    {
      rest := env;
      while true
        invariant Valid() && delivered == old(delivered) && |rest| <= |env| && rest == env[|env| - |rest|..]
        decreases |rest|, signal
      {
        out, eof := ReadNonblocking(cap);
        if out != [] || eof {
          blocked := false;
          return;
        }
        ghost var before, atStart := |rest|, signal;
        var eager: bool := *;
        while rest != [] && (!signal || eager)
          invariant Valid() && delivered == old(delivered) && |rest| <= |env| && rest == env[|env| - |rest|..]
          invariant waiting
          invariant |rest| <= before && (|rest| == before ==> signal == atStart)
          decreases |rest|
        {
          Others(rest[0]);
          rest := rest[1..];
          eager := *;
        }
        if !signal {
          blocked := true;
          return;
        }
        signal, waiting := false, false;
      }
    }
  }
}
