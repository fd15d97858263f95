/** The Bluetooth LE link of ble.cpp: a TX characteristic that notifies
    the client in 20-byte chunks, an RX characteristic whose writes are
    commands ("SYNC" sends the workout log, "PING" answers "PONG"), and the
    advertising flags.

    The NimBLE stack is not part of this model: connect, disconnect and RX
    writes are events delivered one at a time, every notification sent is
    appended to `notified`, and the log file is an input. */
module Ble {

  /** Bytes per notification. */
  const ChunkSize: nat := 20

  /** The messages the device sends of its own accord. */
  const NoData: string := "NO_DATA\n"
  const BeginLog: string := "BEGIN_LOG\n"
  const EndLog: string := "END_LOG\n"
  const Pong: string := "PONG\n"

  // ---- C strings and chunking ----

  /** What `strlen` sees of a `const char*`: everything before the first NUL. */
  function CStr(s: string): (t: string)
    ensures |t| <= |s| && t == s[..|t|]
    ensures '\0' !in t
    ensures |t| < |s| ==> s[|t|] == '\0'
    ensures '\0' !in s ==> t == s
    decreases |s|
  {
    if s == [] || s[0] == '\0' then []
    else
      var rest := CStr(s[1..]);
      assert s[1..][..|rest|] == s[1..|rest| + 1];
      [s[0]] + rest
  }

  /** The pieces `bleSend` notifies for `data`: 20 bytes at a time, the
      last piece holding what is left. */
  function Chunks(data: string): (cs: seq<string>)
    ensures forall i :: 0 <= i < |cs| ==> 0 < |cs[i]| <= ChunkSize
    ensures forall i :: 0 <= i < |cs| - 1 ==> |cs[i]| == ChunkSize
    ensures |cs| == (|data| + ChunkSize - 1) / ChunkSize
    decreases |data|
  {
    if data == [] then []
    else
      var n := if |data| > ChunkSize then ChunkSize else |data|;
      [data[..n]] + Chunks(data[n..])
  }

  /** A client that concatenates the notifications of one `bleSend`
      receives exactly the data sent. */
  lemma {:induction false} ChunksReassemble(data: string)
    ensures Flatten(Chunks(data)) == data
    decreases |data|
  {
    if data != [] {
      var n := if |data| > ChunkSize then ChunkSize else |data|;
      ChunksReassemble(data[n..]);
      var cs := Chunks(data);
      assert cs[0] == data[..n] && cs[1..] == Chunks(data[n..]);
      assert data[..n] + data[n..] == data;
    }
  }

  /** One turn of `bleSend`'s loop: the next chunk is the next (at most)
      20 bytes. */
  lemma ChunksStep(text: string, sent: nat)
    requires sent < |text|
    ensures var n := if |text| - sent > ChunkSize then ChunkSize else |text| - sent;
      Chunks(text[sent..]) == [text[sent..sent + n]] + Chunks(text[sent + n..])
  {
    var n := if |text| - sent > ChunkSize then ChunkSize else |text| - sent;
    assert text[sent..][n..] == text[sent + n..];
    assert text[sent..][..n] == text[sent..sent + n];
  }

  /** What a client that concatenates the notifications receives. */
  function Flatten(cs: seq<string>): string
    decreases |cs|
  {
    if cs == [] then [] else cs[0] + Flatten(cs[1..])
  }

  lemma {:induction false} FlattenAppend(a: seq<string>, b: seq<string>)
    ensures Flatten(a + b) == Flatten(a) + Flatten(b)
    decreases |a|
  {
    if a == [] {
      assert a + b == b;
    } else {
      assert (a + b)[0] == a[0] && (a + b)[1..] == a[1..] + b;
      FlattenAppend(a[1..], b);
    }
  }

  /** The notifications for a sequence of `bleSend` calls. */
  function Frames(msgs: seq<string>): seq<string>
    decreases |msgs|
  {
    if msgs == [] then [] else Chunks(CStr(msgs[0])) + Frames(msgs[1..])
  }

  lemma {:induction false} FramesAppend(a: seq<string>, b: seq<string>)
    ensures Frames(a + b) == Frames(a) + Frames(b)
    decreases |a|
  {
    if a == [] {
      assert a + b == b;
    } else {
      assert (a + b)[0] == a[0] && (a + b)[1..] == a[1..] + b;
      FramesAppend(a[1..], b);
    }
  }

  lemma FramesSnoc(msgs: seq<string>, m: string)
    ensures Frames(msgs + [m]) == Frames(msgs) + Chunks(CStr(m))
  {
    FramesAppend(msgs, [m]);
    assert [m][1..] == [];
  }

  /** The texts of the messages, one after the other. */
  function Concat(msgs: seq<string>): string
    decreases |msgs|
  {
    if msgs == [] then [] else msgs[0] + Concat(msgs[1..])
  }

  /** Chunking loses and reorders nothing: the client receives every
      message without NUL, in order. */
  lemma {:induction false} FramesDeliver(msgs: seq<string>)
    requires forall i :: 0 <= i < |msgs| ==> '\0' !in msgs[i]
    ensures Flatten(Frames(msgs)) == Concat(msgs)
    decreases |msgs|
  {
    if msgs != [] {
      FlattenAppend(Chunks(CStr(msgs[0])), Frames(msgs[1..]));
      ChunksReassemble(CStr(msgs[0]));
      FramesDeliver(msgs[1..]);
    }
  }

  // ---- the log transfer ----

  /** What `readFileByLine` makes of the log: no file, or the lines it
      delivered and whether the read succeeded. */
  datatype LogFile = Missing | Present(lines: seq<string>, readOk: bool)

  /** Each line followed by a newline. */
  function Terminated(lines: seq<string>): (msgs: seq<string>)
    ensures |msgs| == |lines|
    ensures forall i :: 0 <= i < |lines| ==> msgs[i] == lines[i] + "\n"
    decreases |lines|
  {
    if lines == [] then [] else [lines[0] + "\n"] + Terminated(lines[1..])
  }

  /** The messages `bleSendWorkoutLog` sends while connected. */
  function LogMessages(log: LogFile): seq<string>
  {
    match log
    case Missing => [NoData]
    case Present(lines, _) => [BeginLog] + Terminated(lines) + [EndLog]
  }

  /** Where the first line of `s` ends: its first newline, or its end. */
  function NewlineIndex(s: string): (k: nat)
    ensures k <= |s|
    ensures '\n' !in s[..k]
    ensures k < |s| ==> s[k] == '\n'
    decreases |s|
  {
    if s == [] || s[0] == '\n' then 0
    else
      var k := NewlineIndex(s[1..]);
      assert s[..k + 1] == [s[0]] + s[1..][..k];
      k + 1
  }

  /** The client's side: the text cut at each newline. */
  function SplitLines(s: string): seq<string>
    decreases |s|
  {
    if s == [] then []
    else
      var k := NewlineIndex(s);
      if k == |s| then [s] else [s[..k]] + SplitLines(s[k + 1..])
  }

  /** A line without a newline, its newline and more text: the first
      newline is the one after the line. */
  lemma FirstNewline(line: string, rest: string)
    requires '\n' !in line
    ensures NewlineIndex(line + "\n" + rest) == |line|
  {
    var s := line + "\n" + rest;
    assert s[|line|] == '\n';
    assert forall i :: 0 <= i < |line| ==> s[i] == line[i];
  }

  /** The framing round trip: a client that splits the received log text
      at newlines gets back exactly the lines read from the file, as long
      as no line itself holds a newline. */
  lemma {:induction false} SplitTerminated(lines: seq<string>)
    requires forall i :: 0 <= i < |lines| ==> '\n' !in lines[i]
    ensures SplitLines(Concat(Terminated(lines))) == lines
    decreases |lines|
  {
    if lines != [] {
      var rest := Concat(Terminated(lines[1..]));
      assert Terminated(lines)[1..] == Terminated(lines[1..]);
      assert Concat(Terminated(lines)) == lines[0] + "\n" + rest;
      var s := lines[0] + "\n" + rest;
      FirstNewline(lines[0], rest);
      assert s[..|lines[0]|] == lines[0];
      assert s[|lines[0]| + 1..] == rest;
      SplitTerminated(lines[1..]);
    }
  }

  lemma {:induction false} ConcatAppend(a: seq<string>, b: seq<string>)
    ensures Concat(a + b) == Concat(a) + Concat(b)
    decreases |a|
  {
    if a == [] {
      assert a + b == b;
    } else {
      assert (a + b)[0] == a[0] && (a + b)[1..] == a[1..] + b;
      ConcatAppend(a[1..], b);
    }
  }

  /** The notifications of a log transfer: those of the opening marker,
      of each line, and of the closing marker. */
  lemma LogFrames(begin: string, lines: seq<string>, end: string)
    ensures Frames([begin] + Terminated(lines) + [end]) ==
      Chunks(CStr(begin)) + Frames(Terminated(lines)) + Chunks(CStr(end))
  {
    FramesSnoc([], begin);
    assert [] + [begin] == [begin];
    FramesAppend([begin], Terminated(lines));
    FramesSnoc([begin] + Terminated(lines), end);
  }

  lemma FramedLog(begin: string, lines: seq<string>, end: string)
    requires '\0' !in begin && '\0' !in end
    requires forall i :: 0 <= i < |lines| ==> '\0' !in lines[i]
    ensures Flatten(Frames([begin] + Terminated(lines) + [end])) == begin + Concat(Terminated(lines)) + end
  {
    var t := Terminated(lines);
    forall i | 0 <= i < |t| ensures '\0' !in t[i] {
      assert t[i] == lines[i] + "\n";
    }
    LogFrames(begin, lines, end);
    FlattenAppend(Chunks(CStr(begin)) + Frames(t), Chunks(CStr(end)));
    FlattenAppend(Chunks(CStr(begin)), Frames(t));
    ChunksReassemble(CStr(begin));
    ChunksReassemble(CStr(end));
    FramesDeliver(t);
  }

  lemma AppendAssoc(a: seq<string>, b: seq<string>, c: seq<string>, d: seq<string>)
    ensures ((a + b) + c) + d == a + ((b + c) + d)
  {
  }

  lemma MarkersHaveNoNul()
    ensures '\0' !in BeginLog && '\0' !in EndLog && '\0' !in Pong
  {
  }

  /** A connected client that asks for the log of a file whose lines hold
      no NUL receives BEGIN_LOG, each line with its newline, and END_LOG. */
  lemma LogStream(lines: seq<string>, ok: bool)
    requires forall i :: 0 <= i < |lines| ==> '\0' !in lines[i]
    ensures Flatten(Frames(LogMessages(Present(lines, ok)))) ==
      BeginLog + Concat(Terminated(lines)) + EndLog
  {
    MarkersHaveNoNul();
    FramedLog(BeginLog, lines, EndLog);
  }

  // ---- commands ----

  /** The messages an RX write asks for. */
  function Response(rx: string, log: LogFile): seq<string>
  {
    if rx == "SYNC" then LogMessages(log)
    else if rx == "PING" then [Pong]
    else []
  }

  /** Only SYNC and PING are answered; the empty write and every other
      value are ignored. */
  lemma OnlyKnownCommandsAnswered(rx: string, log: LogFile)
    ensures Response(rx, log) != [] <==> rx == "SYNC" || rx == "PING"
    ensures rx == "PING" ==> Flatten(Frames(Response(rx, log))) == Pong
  {
    if rx == "PING" {
      FramesDeliver([Pong]);
    }
  }

  /** The statics of ble.cpp. `txReady` is whether `bleInit` created the
      TX characteristic. */
  class Link {
    var bleActive: bool
    var deviceConnected: bool
    var oldDeviceConnected: bool
    const txReady: bool
    /** Every notification sent so far. */
    var notified: seq<string>

    constructor (txCreated: bool)
      ensures !bleActive && !deviceConnected && !oldDeviceConnected
      ensures txReady == txCreated && notified == []
    {
      bleActive, deviceConnected, oldDeviceConnected := false, false, false;
      txReady := txCreated;
      notified := [];
    }

    /** Notifications reach the client only while connected with a TX
        characteristic. */
    predicate Live()
      reads this
    {
      deviceConnected && txReady
    }

    method OnConnect()
      modifies this`deviceConnected
      ensures deviceConnected
    {
      deviceConnected := true;
    }

    method OnDisconnect()
      modifies this`deviceConnected
      ensures !deviceConnected
    {
      deviceConnected := false;
    }

    /** `bleStart`: returns whether advertising was started. */
    method Start() returns (advertise: bool)
      modifies this`bleActive
      ensures advertise == !old(bleActive)
      ensures bleActive
    {
      if bleActive {
        return false;
      }
      bleActive := true;
      return true;
    }

    /** `bleStop`: returns whether advertising was stopped. */
    method Stop() returns (stopped: bool)
      modifies this`bleActive, this`deviceConnected
      ensures stopped == old(bleActive)
      ensures !bleActive
      ensures deviceConnected == (old(deviceConnected) && !stopped)
    {
      if !bleActive {
        return false;
      }
      bleActive := false;
      deviceConnected := false;
      return true;
    }

    method IsActive() returns (active: bool)
      ensures active == bleActive
    {
      active := bleActive;
    }

    method IsConnected() returns (connected: bool)
      ensures connected == deviceConnected
    {
      connected := deviceConnected;
    }

    /** `bleSend(data)`: returns the bytes sent. */
    method Send(data: string) returns (sent: nat)
      modifies this`notified
      ensures !Live() ==> sent == 0 && notified == old(notified)
      ensures Live() ==> sent == |CStr(data)| && notified == old(notified) + Chunks(CStr(data))
    {
      if !deviceConnected || !txReady {
        return 0;
      }
      var text := CStr(data);
      sent := 0;
      while sent < |text|
        invariant 0 <= sent <= |text|
        invariant notified + Chunks(text[sent..]) == old(notified) + Chunks(text)
        decreases |text| - sent
      {
        var remaining := |text| - sent;
        var toSend := if remaining > ChunkSize then ChunkSize else remaining;
        ChunksStep(text, sent);
        var chunk := text[sent..sent + toSend];
        ghost var rest := Chunks(text[sent + toSend..]);
        assert (notified + [chunk]) + rest == notified + ([chunk] + rest);
        notified := notified + [chunk];
        sent := sent + toSend;
      }
      assert text[sent..] == [];
      assert notified + [] == notified;
    }

    /** The callback `bleSendWorkoutLog` hands to `readFileByLine`,
        applied to each line read: the line and a newline. */
    method SendLines(lines: seq<string>)
      modifies this`notified
      ensures Live() ==> notified == old(notified) + Frames(Terminated(lines))
      ensures !Live() ==> notified == old(notified)
    {
      var i := 0;
      while i < |lines|
        invariant 0 <= i <= |lines|
        invariant Live() ==> notified == old(notified) + Frames(Terminated(lines[..i]))
        invariant !Live() ==> notified == old(notified)
      {
        var line := lines[i] + "\n";
        ghost var before := notified;
        var _ := Send(line);
        if Live() {
          LinesFramesExtend(old(notified), before, lines, i, notified);
        }
        i := i + 1;
      }
      assert lines[..i] == lines;
    }

    /** `bleSendWorkoutLog`: false when disconnected or without a log,
        otherwise whether the file was read to the end. */
    method SendWorkoutLog(log: LogFile) returns (ok: bool)
      modifies this`notified
      ensures !deviceConnected ==> !ok
      ensures deviceConnected ==> ok == (log.Present? && log.readOk)
      ensures Live() ==> notified == old(notified) + Frames(LogMessages(log))
      ensures !Live() ==> notified == old(notified)
    {
      if !deviceConnected {
        return false;
      }
      if log.Missing? {
        var _ := Send(NoData);
        assert Live() ==> notified == old(notified) + Frames(LogMessages(log)) by {
          FramesSnoc([], NoData);
          assert [] + [NoData] == LogMessages(log);
        }
        return false;
      }
      ghost var start := notified;
      var _ := Send(BeginLog);
      SendLines(log.lines);
      var _ := Send(EndLog);
      assert Live() ==> notified == old(notified) + Frames(LogMessages(log)) by {
        LogFrames(BeginLog, log.lines, EndLog);
        if Live() {
          AppendAssoc(start, Chunks(CStr(BeginLog)), Frames(Terminated(log.lines)), Chunks(CStr(EndLog)));
        }
      }
      ok := log.readOk;
    }

    /** `RxCallbacks::onWrite` with the written value `rx`. */
    method OnWrite(rx: string, log: LogFile)
      modifies this`notified
      ensures notified == old(notified) + if Live() then Frames(Response(rx, log)) else []
    {
      if |rx| > 0 {
        if rx == "SYNC" {
          var _ := SendWorkoutLog(log);
        } else if rx == "PING" {
          var _ := Send(Pong);
        }
      }
    }

    /** `bleUpdate`: returns whether advertising was restarted after the
        client went away. */
    method Update() returns (restart: bool)
      modifies this`oldDeviceConnected
      ensures restart == (!deviceConnected && old(oldDeviceConnected) && bleActive)
      ensures oldDeviceConnected == deviceConnected
    {
      restart := !deviceConnected && oldDeviceConnected && bleActive;
      oldDeviceConnected := deviceConnected;
    }
  }

  /** One turn of the line loop: notifying line `i` with its newline after
      the notifications of the first `i` lines gives those of the first
      `i + 1`. */
  lemma LinesFramesExtend(start: seq<string>, before: seq<string>, lines: seq<string>, i: nat, after: seq<string>)
    requires i < |lines|
    requires before == start + Frames(Terminated(lines[..i]))
    requires after == before + Chunks(CStr(lines[i] + "\n"))
    ensures after == start + Frames(Terminated(lines[..i + 1]))
  {
    TerminatedExtend(lines, i);
    FramesSnoc(Terminated(lines[..i]), lines[i] + "\n");
    var done := Frames(Terminated(lines[..i]));
    assert (start + done) + Chunks(CStr(lines[i] + "\n")) == start + (done + Chunks(CStr(lines[i] + "\n")));
  }

  lemma TerminatedExtend(lines: seq<string>, i: nat)
    requires i < |lines|
    ensures Terminated(lines[..i + 1]) == Terminated(lines[..i]) + [lines[i] + "\n"]
  {
    var a, b := Terminated(lines[..i + 1]), Terminated(lines[..i]) + [lines[i] + "\n"];
    assert |a| == |b|;
    forall k | 0 <= k < |a| ensures a[k] == b[k] {
      assert lines[..i + 1][k] == lines[k];
    }
  }

}
