/**
 * Where log lines go. Printing, `logging.log` and a named logger are all
 * modelled as appending one line to a log; the wrapped callable is modelled
 * by the lines it writes itself and by how it ends.
 */
module Sink {
  import opened Values

  /** One emitted log record: the level it was logged at and its text. */
  datatype Line = Line(level: Level, text: string)

  /** How a call of the wrapped callable ends. */
  datatype Outcome = Returned(value: Value) | Raised(exc: Exc)

  /** One call of the wrapped callable: what it logs itself, then its outcome. */
  datatype Run = Run(emitted: seq<Line>, outcome: Outcome)

  /** The record of everything emitted so far, oldest first. */
  class Log {
    var lines: seq<Line>

    constructor ()
      ensures lines == []
    {
      lines := [];
    }

    /** Emit one line. */
    method Emit(line: Line)
      modifies this
      ensures lines == old(lines) + [line]
    {
      lines := lines + [line];
    }

    /** Emit `more`, one line after the other. */
    method EmitAll(more: seq<Line>)
      modifies this
      ensures lines == old(lines) + more
    {
      for i := 0 to |more|
        invariant lines == old(lines) + more[..i]
      {
        assert more[..i + 1] == more[..i] + [more[i]];
        Emit(more[i]);
      }
      assert more[..|more|] == more;
    }
  }
}
