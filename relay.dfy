/** The relay goroutine of the build handler: it reads the pipe behind the
    redirected os.Stderr line by line and copies each line, newline-terminated,
    into the HTTP response, flushing after each one. */
module Relay {
  import opened Http
  import opened Daemon

  /** How the relay's final ReadLine ends: io.EOF, or any other read error. */
  datatype ReadEnd = Eof | ReadError(msg: string)

  /** The result of one reader.ReadLine() call. */
  datatype Read = Line(line: string) | End(end: ReadEnd)

  /** The i-th ReadLine on a pipe that yields the framed `lines` and then `end`. */
  function NextRead(lines: seq<string>, end: ReadEnd, i: nat): Read
  {
    if i < |lines| then Line(lines[i]) else End(end)
  }

  predicate NoNewline(s: string)
  {
    forall j :: 0 <= j < |s| ==> s[j] != '\n'
  }

  /** Number of response-writer calls the relay makes per line. */
  function Width(flusher: bool): nat
  {
    if flusher then 2 else 1
  }

  /** The calls the relay makes for one line: Write(line + "\n"), then Flush()
      when the writer is an http.Flusher. */
  function LineEvents(line: string, flusher: bool): seq<Event>
  {
    [Chunk(line + "\n")] + (if flusher then [Flushed] else [])
  }

  /** The calls the relay makes for the lines it reads, in order. */
  function RelayTrace(lines: seq<string>, flusher: bool): (r: seq<Event>)
    ensures |r| == |lines| * Width(flusher)
  {
    if lines == [] then [] else LineEvents(lines[0], flusher) + RelayTrace(lines[1..], flusher)
  }

  /** The body the client should receive: every line, each followed by one newline. */
  function RelayedBody(lines: seq<string>): string
  {
    if lines == [] then "" else lines[0] + "\n" + RelayedBody(lines[1..])
  }

  lemma {:induction false} RelayTraceAppend(lines: seq<string>, x: string, flusher: bool)
    ensures RelayTrace(lines + [x], flusher) == RelayTrace(lines, flusher) + LineEvents(x, flusher)
  {
    if lines == [] {
      assert (lines + [x])[1..] == [];
    } else {
      assert (lines + [x])[0] == lines[0];
      assert (lines + [x])[1..] == lines[1..] + [x];
      RelayTraceAppend(lines[1..], x, flusher);
    }
  }

  /** What the client reads is exactly the lines in order, each followed by one newline. */
  lemma {:induction false} RelayBody(lines: seq<string>, flusher: bool)
    ensures BodyOf(RelayTrace(lines, flusher)) == RelayedBody(lines)
  {
    if lines != [] {
      var head := LineEvents(lines[0], flusher);
      BodyOfAppend(head, RelayTrace(lines[1..], flusher));
      assert BodyOf(head) == lines[0] + "\n" by {
        if flusher {
          assert head[1..] == [Flushed];
          assert BodyOf([Flushed]) == "" + BodyOf([]);
        } else {
          assert head[1..] == [];
        }
      }
      RelayBody(lines[1..], flusher);
    }
  }

  /** Line k is written at call k * Width, and (with a flusher) flushed right after. */
  lemma {:induction false} RelayTraceAt(lines: seq<string>, flusher: bool, k: nat)
    requires k < |lines|
    ensures var r := RelayTrace(lines, flusher);
      var at := if flusher then 2 * k else k;
      at < |r| && r[at] == Chunk(lines[k] + "\n") &&
      (flusher ==> at + 1 < |r| && r[at + 1] == Flushed)
  {
    if k > 0 {
      RelayTraceAt(lines[1..], flusher, k - 1);
      assert lines[1..][k - 1] == lines[k];
    }
  }

  /** The relay never sets the status: it only writes and flushes. */
  lemma {:induction false} RelayNoHeader(lines: seq<string>, flusher: bool)
    ensures forall k :: 0 <= k < |RelayTrace(lines, flusher)| ==> !RelayTrace(lines, flusher)[k].Header?
  {
    if lines != [] {
      RelayNoHeader(lines[1..], flusher);
      var head := LineEvents(lines[0], flusher);
      var r := RelayTrace(lines, flusher);
      assert r == head + RelayTrace(lines[1..], flusher);
      forall k | 0 <= k < |r| ensures !r[k].Header? {
        if k >= |head| {
          assert r[k] == RelayTrace(lines[1..], flusher)[k - |head|];
        }
      }
    }
  }

  /** Index of the first '\n' in s, or |s| when there is none. */
  function NewlineIndex(s: string): (k: nat)
    ensures k <= |s| && NoNewline(s[..k])
    ensures k < |s| ==> s[k] == '\n'
  {
    if s == [] || s[0] == '\n' then 0
    else
      var k := 1 + NewlineIndex(s[1..]);
      assert s[..k] == [s[0]] + s[1..][..k - 1];
      k
  }

  /** The modelled framing of the bytes written into the pipe: split at each
      '\n' (dropped); a final piece without '\n' is still a line. It is
      ReadLine's framing only when no '\r' precedes a '\n' and no line is
      4096 bytes or longer (a line and its '\n' must fit in the buffer). */
  function SplitLines(data: string): (lines: seq<string>)
    ensures forall i :: 0 <= i < |lines| ==> NoNewline(lines[i])
    decreases |data|
  {
    if data == [] then []
    else
      var k := NewlineIndex(data);
      if k == |data| then [data] else [data[..k]] + SplitLines(data[k + 1..])
  }

  lemma {:induction false} NewlineIndexAfter(l: string, t: string)
    requires NoNewline(l)
    ensures NewlineIndex(l + "\n" + t) == |l|
  {
    if l != [] {
      assert (l + "\n" + t)[1..] == l[1..] + "\n" + t;
      NewlineIndexAfter(l[1..], t);
    }
  }

  /** Relaying then framing again (modelled framing) gives back the lines:
      nothing lost, split or merged. */
  lemma {:induction false} SplitRelayed(lines: seq<string>)
    requires forall i :: 0 <= i < |lines| ==> NoNewline(lines[i])
    ensures SplitLines(RelayedBody(lines)) == lines
  {
    if lines != [] {
      var s := RelayedBody(lines);
      var l := lines[0];
      assert s == l + ("\n" + RelayedBody(lines[1..]));
      assert NoNewline(l);
      NewlineIndexAfter(l, RelayedBody(lines[1..]));
      var k := NewlineIndex(s);
      assert s[..k] == l;
      assert s[k + 1..] == RelayedBody(lines[1..]);
      SplitRelayed(lines[1..]);
    }
  }

  /** Under the modelled framing, every byte written into the pipe reaches the
      client, in order; only a final unterminated line gets a '\n' added. */
  lemma {:induction false} RelayedSplit(data: string)
    ensures RelayedBody(SplitLines(data)) ==
      if data == [] || data[|data| - 1] == '\n' then data else data + "\n"
    decreases |data|
  {
    if data != [] {
      var k := NewlineIndex(data);
      if k == |data| {
        assert data[..k] == data;
        assert data[|data| - 1] != '\n';
        assert SplitLines(data) == [data];
      } else {
        var rest := data[k + 1..];
        RelayedSplit(rest);
        var lines := SplitLines(rest);
        assert SplitLines(data) == [data[..k]] + lines;
        assert RelayedBody(SplitLines(data)) == data[..k] + "\n" + RelayedBody(lines);
        assert data == data[..k] + "\n" + rest;
        if rest == [] {
          assert data[|data| - 1] == '\n';
        } else {
          assert data[|data| - 1] == rest[|rest| - 1];
        }
      }
    }
  }

  /** The unbuffered `done` channel, counted: sends by the relay, receives by teardown. */
  class DoneChannel {
    var sent: nat
    var received: nat

    constructor ()
      ensures sent == 0 && received == 0
    {
      sent, received := 0, 0;
    }

    method Send()
      modifies this
      ensures sent == old(sent) + 1 && received == old(received)
    {
      sent := sent + 1;
    }

    /** `<-done`: in the sequential model a receive needs a send that is not
        yet taken; it records that the handler has seen the relay finish. */
    method Receive(log: EffectLog)
      requires received < sent
      modifies this, log
      ensures received == old(received) + 1 && sent == old(sent)
      ensures log.events == old(log.events) + [RelayDone]
    {
      received := received + 1;
      log.Record(RelayDone);
    }
  }

  /** The relay goroutine, run to completion: copy every line to `rw` with a
      trailing '\n' and a flush, stop at EOF or at any other read error, and
      signal `done` exactly once on the way out. The pipe only reaches its end
      once its write end `w` is closed. */
  method Drain(rw: ResponseWriter, w: OsFile, lines: seq<string>, end: ReadEnd, done: DoneChannel)
    requires w.role == PipeWrite && w.closed
    modifies rw, done
    ensures rw.trace == old(rw.trace) + RelayTrace(lines, rw.flusher)
    ensures done.sent == old(done.sent) + 1 && done.received == old(done.received)
  {
    var i := 0;
    while true
      invariant 0 <= i <= |lines|
      invariant rw.trace == old(rw.trace) + RelayTrace(lines[..i], rw.flusher)
      invariant done.sent == old(done.sent) && done.received == old(done.received)
      decreases |lines| - i
    {
      var r := NextRead(lines, end, i);
      if r.End? && r.end.Eof? {
        break;
      } else if r.End? {
        break;
      }
      var line := r.line + "\n";
      rw.Write(line);
      if rw.flusher {
        rw.Flush();
      }
      RelayTraceAppend(lines[..i], lines[i], rw.flusher);
      assert lines[..i + 1] == lines[..i] + [lines[i]];
      i := i + 1;
    }
    assert lines[..i] == lines;
    done.Send();
  }
}
