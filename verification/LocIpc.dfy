/** Long-message framing over a datagram channel.

    A message that fits one datagram goes out as it is.  A longer one is announced by a header
    with its length and then sent in pieces.  A byte is a `char` here; nothing depends on how many
    byte values there are. */
module LocIpc {

  const HEAD := "$MSGLEN$"
  const ABORT := "LocIpc::Sock::ABORT"

  // ---------- Decimal numbers ----------

  function Digit(d: nat): char
    requires d < 10
  {
    "0123456789"[d]
  }

  predicate IsDigit(c: char) {
    '0' <= c <= '9'
  }

  /** std::to_string */
  function ToDecimal(n: nat): string {
    if n < 10 then [Digit(n)] else ToDecimal(n / 10) + [Digit(n % 10)]
  }

  /** sscanf with "%zu": the leading digits. */
  function Scan(s: string, sofar: nat): nat {
    if s == "" || !IsDigit(s[0]) then sofar
    else Scan(s[1..], 10 * sofar + (s[0] as int - '0' as int))
  }

  predicate AllDigits(s: string) {
    forall c :: c in s ==> IsDigit(c)
  }

  lemma {:induction false} ScanSplit(a: string, b: string, sofar: nat)
    requires AllDigits(a)
    ensures Scan(a + b, sofar) == Scan(b, Scan(a, sofar))
  {
    if a == "" {
      assert a + b == b;
    } else {
      assert (a + b)[1..] == a[1..] + b && a[0] in a;
      ScanSplit(a[1..], b, 10 * sofar + (a[0] as int - '0' as int));
    }
  }

  lemma {:induction false} ScanReadsDecimal(n: nat)
    ensures AllDigits(ToDecimal(n)) && Scan(ToDecimal(n), 0) == n
  {
    if n >= 10 {
      ScanReadsDecimal(n / 10);
      var last := [Digit(n % 10)];
      ScanSplit(ToDecimal(n / 10), last, 0);
      assert last[1..] == "";
    }
  }

  // ---------- The sender ----------

  function Header(length: nat): string {
    HEAD + ToDecimal(length)
  }

  function Concat(chunks: seq<string>): string {
    if chunks == [] then "" else chunks[0] + Concat(chunks[1..])
  }

  /** Pieces of a message, in order, none empty and none longer than a datagram. */
  predicate Pieces(max: nat, msg: string, chunks: seq<string>) {
    Concat(chunks) == msg && forall c :: c in chunks ==> 0 < |c| <= max
  }

  /** The datagrams a message may go out as. */
  predicate IsFrame(max: nat, msg: string, datagrams: seq<string>) {
    if |msg| <= max then datagrams == [msg]
    else datagrams != [] && datagrams[0] == Header(|msg|) && Pieces(max, msg, datagrams[1..])
  }

  /** What a long message leaves in the channel when the system refuses one of its pieces. */
  ghost predicate IsCutShort(max: nat, msg: string, datagrams: seq<string>) {
    && |msg| > max && datagrams != [] && datagrams[0] == Header(|msg|)
    && exists n :: 0 <= n < |msg| && Pieces(max, msg[..n], datagrams[1..])
  }

  // ---------- The receiver ----------

  datatype Outcome = Delivered(msg: string) | Aborted | Nothing

  function Cut(s: string, size: nat): string {
    if |s| <= size then s else s[..size]
  }

  predicate StartsWith(s: string, prefix: string) {
    prefix <= s
  }

  /** strncmp against the abort marker with its terminating zero, in a buffer padded with zeros. */
  predicate IsAbort(d: string) {
    d == ABORT || StartsWith(d, ABORT + "\0")
  }

  /** The loop that collects a long message of the given length. */
  function Collect(length: nat, got: string, channel: seq<string>): (r: (Outcome, seq<string>))
    requires |got| <= length
    ensures |r.1| <= |channel|
    decreases |channel|
  {
    if |got| == length then (Delivered(got), channel)
    else if channel == [] then (Nothing, [])
    else if channel[0] == "" then (Nothing, channel[1..])
    else Collect(length, got + Cut(channel[0], length - |got|), channel[1..])
  }

  /** recvfrom: one call of the receiver, on the datagrams waiting in the channel. */
  function Receive(max: nat, channel: seq<string>): (r: (Outcome, seq<string>))
    ensures channel != [] ==> |r.1| < |channel|
  {
    if channel == [] then (Nothing, [])
    else
      var d := Cut(channel[0], max);
      if d == "" then (Nothing, channel[1..])
      else if IsAbort(d) then (Aborted, channel[1..])
      else if !StartsWith(d, HEAD) then (Delivered(d), channel[1..])
      else Collect(Scan(d[|HEAD|..], 0), "", channel[1..])
  }

  /** The receiver called until the channel is empty, or something else than a message comes. */
  function ReceiveAll(max: nat, channel: seq<string>): seq<string>
    decreases |channel|
  {
    if channel == [] then []
    else
      var (o, rest) := Receive(max, channel);
      if o.Delivered? then [o.msg] + ReceiveAll(max, rest) else []
  }

  // ---------- The round trip ----------

  /** A short message must not look like the protocol's own datagrams. */
  predicate Plain(msg: string) {
    !StartsWith(msg, HEAD) && !IsAbort(msg)
  }

  /** What can be sent: a non-empty message, plain if it is short; if it is long, its header must
      fit one datagram. */
  predicate Sendable(max: nat, msg: string) {
    msg != "" && if |msg| <= max then Plain(msg) else |Header(|msg|)| <= max
  }

  /** Pieces are appended one after the other, whatever they look like. */
  lemma {:induction false} CollectsPieces(max: nat, got: string, chunks: seq<string>, rest: seq<string>)
    requires forall c :: c in chunks ==> 0 < |c| <= max
    ensures Collect(|got + Concat(chunks)|, got, chunks + rest) == (Delivered(got + Concat(chunks)), rest)
    decreases |chunks|
  {
    if chunks == [] {
      assert chunks + rest == rest;
      assert got + Concat(chunks) == got;
    } else {
      var c := chunks[0];
      assert c in chunks;
      assert (chunks + rest)[0] == c && (chunks + rest)[1..] == chunks[1..] + rest;
      assert got + Concat(chunks) == (got + c) + Concat(chunks[1..]);
      CollectsPieces(max, got + c, chunks[1..], rest);
    }
  }

  /** A header that fits one datagram makes the receiver collect what it announces. */
  lemma LongReceive(max: nat, length: nat, channel: seq<string>)
    requires channel != [] && channel[0] == Header(length) && |Header(length)| <= max
    ensures Receive(max, channel) == Collect(length, "", channel[1..])
  {
    var d := Header(length);
    assert d[0] == HEAD[0] && ABORT[0] == 'L';
    assert d[|HEAD|..] == ToDecimal(length);
    ScanReadsDecimal(length);
    hide ToDecimal, Scan, Collect;
  }

  lemma ReceivesFrame(max: nat, msg: string, frame: seq<string>, rest: seq<string>)
    requires Sendable(max, msg) && IsFrame(max, msg, frame)
    ensures Receive(max, frame + rest) == (Delivered(msg), rest)
  {
    assert (frame + rest)[0] == frame[0] && (frame + rest)[1..] == frame[1..] + rest;
    hide ToDecimal, Scan, Collect, Concat;
    if |msg| > max {
      LongReceive(max, |msg|, frame + rest);
      CollectsPieces(max, "", frame[1..], rest);
      assert "" + Concat(frame[1..]) == msg;
      hide Receive;
    }
  }

  function Flatten(frames: seq<seq<string>>): seq<string> {
    if frames == [] then [] else frames[0] + Flatten(frames[1..])
  }

  /** However the long messages were cut, the receiver delivers exactly the messages sent, in
      order. */
  lemma {:induction false} RoundTrip(max: nat, msgs: seq<string>, frames: seq<seq<string>>)
    requires |msgs| == |frames|
    requires forall i :: 0 <= i < |msgs| ==> Sendable(max, msgs[i]) && IsFrame(max, msgs[i], frames[i])
    ensures ReceiveAll(max, Flatten(frames)) == msgs
    decreases |msgs|
  {
    if msgs != [] {
      ReceivesFrame(max, msgs[0], frames[0], Flatten(frames[1..]));
      RoundTrip(max, msgs[1..], frames[1..]);
      assert frames[0] != [];
      assert msgs == [msgs[0]] + msgs[1..];
    }
  }

  /** The abort marker as it is sent, with its terminating zero. */
  const MARKER := ABORT + "\0"

  lemma MarkerAborts(max: nat, d: string)
    requires max >= |ABORT|
    ensures IsAbort(Cut(d, max)) <==> d == ABORT || MARKER <= d || (max == |ABORT| && ABORT <= d)
  {
    if MARKER <= d && max == |ABORT| {
      assert d[..max] == MARKER[..max] == ABORT;
    } else if MARKER <= d && max < |d| {
      assert MARKER <= d[..max];
    }
  }

  lemma {:induction false} CollectNeverAborts(length: nat, got: string, channel: seq<string>)
    requires |got| <= length
    ensures Collect(length, got, channel).0 != Aborted
    decreases |channel|
  {
    if |got| < length && channel != [] && channel[0] != "" {
      CollectNeverAborts(length, got + Cut(channel[0], length - |got|), channel[1..]);
    }
  }

  /** The receiver aborts exactly at a datagram that is the marker, with its zero or without, or
      begins with the marker and its zero; in a buffer that has no room for the zero, any datagram
      that begins with the marker. */
  lemma AbortsIff(max: nat, channel: seq<string>)
    requires channel != []
    ensures Receive(max, channel).0 == Aborted <==>
      var d := channel[0];
      max >= |ABORT| && (d == ABORT || MARKER <= d || (max == |ABORT| && ABORT <= d))
    ensures Receive(max, channel).0 == Aborted ==> Receive(max, channel).1 == channel[1..]
  {
    var d := Cut(channel[0], max);
    if max >= |ABORT| {
      MarkerAborts(max, channel[0]);
    }
    if d != "" && !IsAbort(d) && StartsWith(d, HEAD) {
      CollectNeverAborts(Scan(d[|HEAD|..], 0), "", channel[1..]);
    }
    hide Scan, Collect;
  }

  /** The marker ends the receiver: whatever was sent before it is delivered, and neither the marker
      itself nor anything after it is. */
  lemma {:induction false} MarkerEndsReceiver(
    max: nat, msgs: seq<string>, frames: seq<seq<string>>, later: seq<string>)
    requires |msgs| == |frames| && max >= |ABORT|
    requires forall i :: 0 <= i < |msgs| ==> Sendable(max, msgs[i]) && IsFrame(max, msgs[i], frames[i])
    ensures ReceiveAll(max, Flatten(frames) + [MARKER] + later) == msgs
    decreases |msgs|
  {
    var channel := Flatten(frames) + [MARKER] + later;
    if msgs == [] {
      assert channel[0] == MARKER;
      AbortsIff(max, channel);
      hide Receive;
    } else {
      var rest := Flatten(frames[1..]) + [MARKER] + later;
      assert channel == frames[0] + rest;
      ReceivesFrame(max, msgs[0], frames[0], rest);
      MarkerEndsReceiver(max, msgs[1..], frames[1..], later);
      hide Receive, Flatten;
      assert msgs == [msgs[0]] + msgs[1..];
    }
  }

  lemma {:induction false} CollectedLength(length: nat, got: string, channel: seq<string>)
    requires |got| <= length
    ensures var o := Collect(length, got, channel).0; o == Nothing || (o.Delivered? && |o.msg| == length)
    decreases |channel|
  {
    if |got| < length && channel != [] && channel[0] != "" {
      CollectedLength(length, got + Cut(channel[0], length - |got|), channel[1..]);
    }
  }

  /** A decimal number that is cut short announces less. */
  lemma {:induction false} PrefixIsSmaller(n: nat, digits: nat)
    requires digits < |ToDecimal(n)| && n > 0
    ensures Scan(ToDecimal(n)[..digits], 0) < n
  {
    if n >= 10 {
      var front := ToDecimal(n / 10);
      assert ToDecimal(n)[..digits] == front[..digits];
      if digits < |front| {
        PrefixIsSmaller(n / 10, digits);
      } else {
        ScanReadsDecimal(n / 10);
        assert front[..digits] == front;
      }
    }
  }

  /** When the header does not fit one datagram, something shorter than the message arrives
      first, or nothing. */
  lemma CutHeaderMisleads(max: nat, msg: string, frame: seq<string>)
    requires |msg| > max && IsFrame(max, msg, frame) && |Header(|msg|)| > max
    ensures var o := Receive(max, frame).0; !o.Delivered? || |o.msg| < |msg|
  {
    hide ToDecimal, Scan, Collect, Pieces;
    var d := Cut(frame[0], max);
    assert d == Header(|msg|)[..max];
    if d != "" {
      assert d[0] == HEAD[0] && ABORT[0] == 'L';
      if StartsWith(d, HEAD) {
        AnnouncesLess(max, |msg|);
        CollectedLength(Scan(d[|HEAD|..], 0), "", frame[1..]);
      }
    }
  }

  lemma AnnouncesLess(max: nat, length: nat)
    requires |HEAD| <= max < |Header(length)| && length > 0
    ensures Scan(Header(length)[..max][|HEAD|..], 0) < length
  {
    assert Header(length)[..max][|HEAD|..] == ToDecimal(length)[..max - |HEAD|];
    PrefixIsSmaller(length, max - |HEAD|);
    hide ToDecimal, Scan;
  }

  lemma ShortArrivesIffPlain(max: nat, msg: string)
    requires 0 < |msg| <= max
    ensures ReceiveAll(max, [msg]) == [msg] <==> Plain(msg)
  {
  }

  lemma FirstReceived(max: nat, channel: seq<string>)
    ensures ReceiveAll(max, channel) != [] ==>
      Receive(max, channel).0.Delivered? && ReceiveAll(max, channel)[0] == Receive(max, channel).0.msg
  {
  }

  lemma {:induction false} CollectsTooLittle(length: nat, got: string, chunks: seq<string>)
    requires |got| + |Concat(chunks)| < length
    ensures Collect(length, got, chunks) == (Nothing, []) || exists i :: 0 <= i < |chunks| && chunks[i] == ""
    decreases |chunks|
  {
    if chunks != [] && chunks[0] != "" {
      assert Cut(chunks[0], length - |got|) == chunks[0];
      CollectsTooLittle(length, got + chunks[0], chunks[1..]);
      assert forall i :: 0 <= i < |chunks[1..]| ==> chunks[1..][i] == chunks[i + 1];
    }
  }

  /** Nothing of a message cut short is delivered by itself, and nothing stays in the channel. */
  lemma CutShortIsLost(max: nat, msg: string, datagrams: seq<string>)
    requires Sendable(max, msg) && IsCutShort(max, msg, datagrams)
    ensures Receive(max, datagrams) == (Nothing, [])
  {
    var n :| 0 <= n < |msg| && Pieces(max, msg[..n], datagrams[1..]);
    hide ToDecimal, Scan, Collect, Concat, Receive;
    LongReceive(max, |msg|, datagrams);
    CollectsTooLittle(|msg|, "", datagrams[1..]);
    assert forall i :: 0 <= i < |datagrams[1..]| ==> datagrams[1..][i] in datagrams[1..];
  }

  /** The side conditions are exact: a message sent alone arrives if and only if it is short and
      plain, or long with a header that fits one datagram. */
  lemma ArrivesIffSendable(max: nat, msg: string, frame: seq<string>)
    requires msg != "" && IsFrame(max, msg, frame)
    ensures ReceiveAll(max, frame) == [msg] <==> Sendable(max, msg)
  {
    if |msg| <= max {
      ShortArrivesIffPlain(max, msg);
    } else if Sendable(max, msg) {
      ReceivesFrame(max, msg, frame, []);
      assert frame + [] == frame;
    } else {
      CutHeaderMisleads(max, msg, frame);
      FirstReceived(max, frame);
      assert ReceiveAll(max, frame) != [] ==> |ReceiveAll(max, frame)[0]| < |msg|;
    }
  }

  // ---------- The side conditions are exact for whole lists ----------

  lemma {:induction false} ScanNeedsDigits(s: string, sofar: nat)
    ensures Scan(s, sofar) > 0 ==> |ToDecimal(Scan(s, sofar))| <= |s| + if sofar == 0 then 0 else |ToDecimal(sofar)|
  {
    if s != "" && IsDigit(s[0]) {
      var next := 10 * sofar + (s[0] as int - '0' as int);
      ScanNeedsDigits(s[1..], next);
      assert sofar > 0 ==> next / 10 == sofar;
    }
  }

  lemma {:induction false} ConcatInTwo(a: seq<string>, b: seq<string>)
    ensures Concat(a + b) == Concat(a) + Concat(b)
  {
    if a == [] {
      assert a + b == b;
    } else {
      assert (a + b)[1..] == a[1..] + b;
      ConcatInTwo(a[1..], b);
    }
  }

  /** The least that must be in the channel for the message to be delivered: itself, and a header
      with its length unless it can come as a short one. */
  function Price(max: nat, msg: string): nat {
    if |msg| <= max && Plain(msg) then |msg| else |Header(|msg|)| + |msg|
  }

  function PriceOf(max: nat, msgs: seq<string>): nat {
    if msgs == [] then 0 else Price(max, msgs[0]) + PriceOf(max, msgs[1..])
  }

  /** What is put into the channel for the messages. */
  function Outlay(max: nat, msgs: seq<string>): nat {
    if msgs == [] then 0
    else (if |msgs[0]| <= max then |msgs[0]| else |Header(|msgs[0]|)| + |msgs[0]|) + Outlay(max, msgs[1..])
  }

  lemma {:induction false} CollectSpends(length: nat, got: string, channel: seq<string>)
    requires |got| <= length
    ensures var (o, rest) := Collect(length, got, channel);
      o.Delivered? ==> |o.msg| == length && |Concat(channel)| >= |Concat(rest)| + length - |got|
    decreases |channel|
  {
    if |got| < length && channel != [] && channel[0] != "" {
      CollectSpends(length, got + Cut(channel[0], length - |got|), channel[1..]);
    }
  }

  /** Each delivery costs its price, and is of a message that may come at all. */
  lemma ReceiveSpends(max: nat, channel: seq<string>)
    ensures var (o, rest) := Receive(max, channel);
      o.Delivered? && o.msg != "" ==>
        && |Concat(channel)| >= |Concat(rest)| + Price(max, o.msg)
        && (|o.msg| > max ==> |Header(|o.msg|)| <= max)
  {
    hide ToDecimal, Scan, Collect;
    if channel != [] {
      var d := Cut(channel[0], max);
      assert Concat(channel) == channel[0] + Concat(channel[1..]);
      if d != "" && !IsAbort(d) && StartsWith(d, HEAD) {
        CollectSpends(Scan(d[|HEAD|..], 0), "", channel[1..]);
        ScanNeedsDigits(d[|HEAD|..], 0);
      }
    }
  }

  lemma {:induction false} ReceiveAllSpends(max: nat, channel: seq<string>)
    requires forall m :: m in ReceiveAll(max, channel) ==> m != ""
    ensures |Concat(channel)| >= PriceOf(max, ReceiveAll(max, channel))
    ensures forall m :: m in ReceiveAll(max, channel) && |m| > max ==> |Header(|m|)| <= max
    decreases |channel|
  {
    var (o, rest) := Receive(max, channel);
    if channel != [] && o.Delivered? {
      assert ReceiveAll(max, channel) == [o.msg] + ReceiveAll(max, rest);
      assert o.msg in ReceiveAll(max, channel);
      ReceiveSpends(max, channel);
      hide Receive, Price, ToDecimal;
      assert forall m :: m in ReceiveAll(max, rest) ==> m in ReceiveAll(max, channel);
      ReceiveAllSpends(max, rest);
    }
  }

  lemma {:induction false} FramesCost(max: nat, msgs: seq<string>, frames: seq<seq<string>>)
    requires |msgs| == |frames| && forall i :: 0 <= i < |msgs| ==> IsFrame(max, msgs[i], frames[i])
    ensures |Concat(Flatten(frames))| == Outlay(max, msgs)
    decreases |msgs|
  {
    if msgs != [] {
      ConcatInTwo(frames[0], Flatten(frames[1..]));
      FramesCost(max, msgs[1..], frames[1..]);
      assert IsFrame(max, msgs[0], frames[0]);
      if |msgs[0]| <= max {
        assert frames[0][1..] == [] && Concat(frames[0]) == msgs[0];
      }
    }
  }

  /** What is paid for covers the price only of lists without short messages that are not plain. */
  lemma {:induction false} PricePaid(max: nat, msgs: seq<string>)
    ensures Outlay(max, msgs) <= PriceOf(max, msgs)
    ensures Outlay(max, msgs) == PriceOf(max, msgs) ==> forall m :: m in msgs && |m| <= max ==> Plain(m)
  {
    hide Plain, ToDecimal;
    if msgs != [] {
      PricePaid(max, msgs[1..]);
    }
  }

  /** A list of messages arrives as it was sent, however the long ones were cut, if and only if each
      of them is short and plain, or long with a header that fits one datagram. */
  lemma AllArriveIffSendable(max: nat, msgs: seq<string>, frames: seq<seq<string>>)
    requires |msgs| == |frames|
    requires forall i :: 0 <= i < |msgs| ==> msgs[i] != "" && IsFrame(max, msgs[i], frames[i])
    ensures ReceiveAll(max, Flatten(frames)) == msgs <==> forall m :: m in msgs ==> Sendable(max, m)
  {
    hide IsFrame, Plain, ToDecimal, Concat, Flatten, ReceiveAll;
    if forall m :: m in msgs ==> Sendable(max, m) {
      RoundTrip(max, msgs, frames);
    }
    if ReceiveAll(max, Flatten(frames)) == msgs {
      ReceiveAllSpends(max, Flatten(frames));
      FramesCost(max, msgs, frames);
      PricePaid(max, msgs);
    }
  }

  // ---------- The objects ----------

  /** A lossless channel that keeps the order.  The system may refuse a datagram, and it may take
      only the first part of a piece of a long message. */
  class Channel {
    var queue: seq<string>

    constructor ()
      ensures queue == []
    {
      queue := [];
    }

    /** sendto for a datagram that goes out whole or not at all. */
    method SendWhole(buf: string, accept: bool) returns (sent: int)
      modifies this
      ensures sent == if accept then |buf| else -1
      ensures queue == if accept then old(queue) + [buf] else old(queue)
    {
      if accept {
        queue := queue + [buf];
        sent := |buf|;
      } else {
        sent := -1;
      }
    }

    /** sendto that may send less than it is given. */
    method SendSome(buf: string) returns (sent: int)
      requires buf != ""
      modifies this
      ensures sent == -1 || 0 < sent <= |buf|
      ensures queue == if sent > 0 then old(queue) + [buf[..sent]] else old(queue)
    {
      sent := *;
      if !(0 < sent <= |buf|) {
        sent := -1;
      } else {
        queue := queue + [buf[..sent]];
      }
    }

    /** recvfrom into a buffer: what does not fit is lost. */
    method RecvFrom(size: nat) returns (received: int, data: string)
      modifies this
      ensures old(queue) == [] ==> received == -1 && data == "" && queue == []
      ensures old(queue) != [] ==>
        queue == old(queue)[1..] && data == Cut(old(queue)[0], size) && received == |data|
    {
      if queue == [] {
        received, data := -1, "";
      } else {
        data := if |queue[0]| <= size then queue[0] else queue[0][..size];
        received := |data|;
        queue := queue[1..];
      }
    }
  }

  lemma {:induction false} ConcatSnoc(chunks: seq<string>, c: string)
    ensures Concat(chunks + [c]) == Concat(chunks) + c
  {
    if chunks == [] {
      assert chunks + [c] == [c] && [c][1..] == [];
    } else {
      assert (chunks + [c])[0] == chunks[0] && (chunks + [c])[1..] == chunks[1..] + [c];
      ConcatSnoc(chunks[1..], c);
    }
  }

  class Sock {
    const maxTxSize: nat

    constructor (maxTxSize: nat)
      ensures this.maxTxSize == maxTxSize
    {
      this.maxTxSize := maxTxSize;
    }

    /** The loop over the pieces of a long message.  It ends early when the system refuses one. */
    method SendPieces(channel: Channel, buf: string) returns (ok: bool, ghost chunks: seq<string>)
      requires maxTxSize > 0
      modifies channel
      ensures channel.queue == old(channel.queue) + chunks
      ensures ok ==> Pieces(maxTxSize, buf, chunks)
      ensures !ok ==> exists n :: 0 <= n < |buf| && Pieces(maxTxSize, buf[..n], chunks)
    {
      chunks := [];
      ok := true;
      var offset := 0;
      assert Concat(chunks) == buf[..offset];
      hide Concat;
      while offset < |buf| && ok
        invariant offset <= |buf| && (!ok ==> offset < |buf|)
        invariant Concat(chunks) == buf[..offset]
        invariant forall c :: c in chunks ==> 0 < |c| <= maxTxSize
        invariant channel.queue == old(channel.queue) + chunks
        decreases |buf| - offset, ok
      {
        var size := if |buf| - offset < maxTxSize then |buf| - offset else maxTxSize;
        var piece := buf[offset..offset + size];
        var rtv := channel.SendSome(piece);
        ok := rtv > 0;
        if ok {
          ConcatSnoc(chunks, piece[..rtv]);
          assert buf[..offset + rtv] == buf[..offset] + piece[..rtv];
          chunks := chunks + [piece[..rtv]];
          offset := offset + rtv;
        }
      }
      assert buf[..|buf|] == buf;
      assert Pieces(maxTxSize, buf[..offset], chunks);
    }

    /** Whatever the system does with the pieces: a positive result means that the whole message
        has gone out as one of its frames. */
    method SendTo(channel: Channel, buf: string, headAccepted: bool) returns (rtv: int)
      requires maxTxSize > 0
      modifies channel
      ensures |buf| <= maxTxSize ==> rtv == if headAccepted then |buf| else -1
      ensures |buf| > maxTxSize && rtv > 0 ==> headAccepted && rtv == |Header(|buf|)| + |buf|
      ensures headAccepted && (|buf| <= maxTxSize || rtv > 0) ==>
        exists frame :: IsFrame(maxTxSize, buf, frame) && channel.queue == old(channel.queue) + frame
      ensures headAccepted && |buf| > maxTxSize && rtv <= 0 ==>
        rtv == -1 && exists frame :: IsCutShort(maxTxSize, buf, frame) && channel.queue == old(channel.queue) + frame
      ensures !headAccepted ==> rtv == -1 && channel.queue == old(channel.queue)
    {
      hide Pieces, ToDecimal;
      if |buf| <= maxTxSize {
        rtv := channel.SendWhole(buf, headAccepted);
        assert headAccepted ==> IsFrame(maxTxSize, buf, [buf]);
      } else {
        var head := HEAD + ToDecimal(|buf|);
        rtv := channel.SendWhole(head, headAccepted);
        if rtv > 0 {
          ghost var before := channel.queue;
          var ok, chunks := SendPieces(channel, buf);
          assert before + chunks == old(channel.queue) + ([head] + chunks);
          assert ok ==> IsFrame(maxTxSize, buf, [head] + chunks);
          assert !ok ==> IsCutShort(maxTxSize, buf, [head] + chunks);
          rtv := if ok then |head| + |buf| else -1;
        }
      }
    }

    /** The collecting loop of the receiver. */
    method CollectFrom(channel: Channel, msgLen: nat) returns (complete: bool, msg: string)
      modifies channel
      ensures (if complete then Delivered(msg) else Nothing, channel.queue) == Collect(msgLen, "", old(channel.queue))
    {
      msg := "";
      complete := true;
      while |msg| < msgLen && complete
        invariant |msg| <= msgLen
        invariant complete ==> Collect(msgLen, msg, channel.queue) == Collect(msgLen, "", old(channel.queue))
        invariant !complete ==> (Nothing, channel.queue) == Collect(msgLen, "", old(channel.queue))
        decreases |channel.queue|, complete
      {
        var nBytes, data := channel.RecvFrom(msgLen - |msg|);
        if nBytes > 0 {
          msg := msg + data;
        } else {
          complete := false;
        }
      }
    }

    method RecvFrom(channel: Channel) returns (outcome: Outcome)
      modifies channel
      ensures (outcome, channel.queue) == Receive(maxTxSize, old(channel.queue))
    {
      var nBytes, msg := channel.RecvFrom(maxTxSize);
      if nBytes <= 0 {
        outcome := Nothing;
      } else if msg == ABORT || ABORT + "\0" <= msg {
        outcome := Aborted;
      } else if !(HEAD <= msg) {
        outcome := Delivered(msg);
      } else {
        var complete, long := CollectFrom(channel, Scan(msg[|HEAD|..], 0));
        outcome := if complete then Delivered(long) else Nothing;
      }
    }
  }
}
