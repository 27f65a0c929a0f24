/** Bounded capture of one child stream. */
module BoundedCapture {
  import opened Prelude

  type Bytes = string

  const NEWLINE: char := '\n'

  datatype Op = WriteLine(line: Bytes) | MarkOverflow

  /** What the stream would be if nothing were cut: every line followed by a newline. */
  function Stream(lines: seq<Bytes>): Bytes {
    if lines == [] then "" else Stream(lines[..|lines| - 1]) + lines[|lines| - 1] + [NEWLINE]
  }

  /** The closed form of the captured bytes. */
  function Captured(limit: nat, lines: seq<Bytes>): Bytes
    requires limit >= 1
  {
    var s := Stream(lines);
    if |s| <= limit then s else s[..limit - 1] + [NEWLINE]
  }

  /** The lines written before the first overflow mark: the ones that can be captured at all. */
  function Recorded(ops: seq<Op>): seq<Bytes> {
    if ops == [] then []
    else
      var before := Recorded(ops[..|ops| - 1]);
      if Marked(ops[..|ops| - 1]) || ops[|ops| - 1].MarkOverflow? then before
      else before + [ops[|ops| - 1].line]
  }

  predicate Marked(ops: seq<Op>) {
    exists i :: 0 <= i < |ops| && ops[i].MarkOverflow?
  }

  /** The state of the buffer, as one value. */
  datatype Buffer = Buffer(limit: nat, buf: Bytes, overflowed: bool) {
    function WriteLine(line: Bytes): Buffer {
      if overflowed then this
      else
        var room := limit - |buf|;
        if room <= 0 then this.(overflowed := true)
        else if |line| + 1 > room then this.(buf := buf + line[..room - 1] + [NEWLINE], overflowed := true)
        else this.(buf := buf + line + [NEWLINE])
    }

    function Apply(op: Op): Buffer {
      match op
      case WriteLine(line) => WriteLine(line)
      case MarkOverflow => this.(overflowed := true)
    }
  }

  function Run(limit: nat, ops: seq<Op>): Buffer {
    if ops == [] then Buffer(limit, "", false)
    else Run(limit, ops[..|ops| - 1]).Apply(ops[|ops| - 1])
  }

  /** Cutting an extended stream that already overflowed changes nothing more. */
  lemma CutStable(limit: nat, s: Bytes, line: Bytes)
    requires limit >= 1 && |s| >= limit
    ensures (s + line + [NEWLINE])[..limit - 1] == s[..limit - 1]
  {
  }

  lemma {:induction false} StreamEnds(lines: seq<Bytes>)
    ensures |lines| > 0 ==> |Stream(lines)| > 0 && Stream(lines)[|Stream(lines)| - 1] == NEWLINE
  {
  }

  lemma MarkedLast(ops: seq<Op>)
    requires ops != []
    ensures Marked(ops) <==> Marked(ops[..|ops| - 1]) || ops[|ops| - 1].MarkOverflow?
  {
    var front := ops[..|ops| - 1];
    if Marked(front) {
      var i :| 0 <= i < |front| && front[i].MarkOverflow?;
      assert ops[i].MarkOverflow?;
    }
    if ops[|ops| - 1].MarkOverflow? { assert ops[|ops| - 1].MarkOverflow?; }
  }

  /** How one more line extends the stream and cuts it. */
  lemma OneMoreLine(limit: nat, lines: seq<Bytes>, line: Bytes)
    requires limit >= 1
    ensures var s, more := Stream(lines), Stream(lines + [line]);
            && more == s + line + [NEWLINE]
            && (|s| >= limit ==> Captured(limit, lines + [line]) == Captured(limit, lines))
            && (|s| < limit < |more| ==> more[..limit - 1] == s + line[..limit - |s| - 1])
  {
    var s, more := Stream(lines), Stream(lines + [line]);
    assert (lines + [line])[..|lines|] == lines;
    StreamEnds(lines);
    if |s| >= limit {
      CutStable(limit, s, line);
      if |s| == limit { assert s == s[..limit - 1] + [NEWLINE]; }
    }
  }

  /** After any sequence of operations with a limit of at least 1, the captured bytes are the whole
      stream of the recorded lines if it fits, and else its first limit-1 bytes and one newline.
      So the bound always holds, and the overflow flag never lies. */
  lemma {:induction false} ClosedForm(limit: nat, ops: seq<Op>)
    requires limit >= 1
    ensures Run(limit, ops).buf == Captured(limit, Recorded(ops)) && Run(limit, ops).limit == limit
    ensures Run(limit, ops).overflowed <==> Marked(ops) || |Stream(Recorded(ops))| > limit
    ensures |Run(limit, ops).buf| <= limit
  {
    if ops != [] {
      var front, last := ops[..|ops| - 1], ops[|ops| - 1];
      ClosedForm(limit, front);
      MarkedLast(ops);
      if last.WriteLine? && !Marked(front) {
        var more := Recorded(front) + [last.line];
        assert Recorded(ops) == more && more[..|more| - 1] == Recorded(front);
        OneMoreLine(limit, Recorded(front), last.line);
      }
    }
  }

  class BoundedBuffer {
    const limit: nat
    var buf: Bytes
    var overflowed: bool
    ghost var ops: seq<Op>

    ghost predicate Valid()
      reads this
    {
      Buffer(limit, buf, overflowed) == Run(limit, ops)
    }

    constructor (limit: nat)
      ensures Valid() && this.limit == limit && ops == []
    {
      this.limit := limit;
      buf, overflowed, ops := "", false, [];
    }

    method WriteLine(line: Bytes)
      requires Valid()
      modifies this
      ensures Valid() && ops == old(ops) + [Op.WriteLine(line)]
    {
      ops := ops + [Op.WriteLine(line)];
      assert ops[..|ops| - 1] == old(ops);
      if overflowed { return; }
      var room := limit - |buf|;
      if room <= 0 {
        overflowed := true;
        return;
      }
      if |line| + 1 > room {
        buf := buf + line[..room - 1];
        buf := buf + [NEWLINE];
        overflowed := true;
        return;
      }
      buf := buf + line;
      buf := buf + [NEWLINE];
    }

    method MarkOverflow()
      requires Valid()
      modifies this
      ensures Valid() && ops == old(ops) + [Op.MarkOverflow]
    {
      ops := ops + [Op.MarkOverflow];
      assert ops[..|ops| - 1] == old(ops);
      overflowed := true;
    }

    /** The snapshot is the closed form of everything recorded so far. */
    method Snapshot() returns (bytes: Bytes)
      requires Valid()
      ensures limit >= 1 ==> bytes == Captured(limit, Recorded(ops))
    {
      if limit >= 1 { ClosedForm(limit, ops); }
      return buf;
    }
  }
}
