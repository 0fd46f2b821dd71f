/**
 The first-frame gate: nothing the SDK sends reaches the client until its first
 bytes have been recognised as the endpoint frame (server-sent event framing,
 section 9.2 of the WHATWG HTML standard).
 */
module FirstFrame {
  import opened Wrappers

  newtype byte = x: int | 0 <= x < 256
  type Bytes = seq<byte>

  const LF: byte := 10
  const CR: byte := 13
  const MAX_FIRST_FRAME_BYTES := 4096

  function Ascii(s: string): (b: Bytes)
    requires forall i :: 0 <= i < |s| ==> s[i] < 128 as char
  {
    seq(|s|, i requires 0 <= i < |s| => s[i] as int as byte)
  }

  const EVENT_LINE: Bytes := Ascii("event: endpoint")
  const DATA_PREFIX: Bytes := Ascii("data: /mcp/messages/?session_id=")
  const BLANK_CRLF: Bytes := [CR, LF, CR, LF]
  const BLANK_LF: Bytes := [LF, LF]

  datatype Message = ResponseStart(status: nat) | ResponseBody(body: Bytes)

  const UNAVAILABLE: seq<Message> := [ResponseStart(503), ResponseBody(Ascii("{\"error\":\"mcp_unavailable\"}"))]

  // ---- Byte searching ----

  predicate OccursAt(b: Bytes, m: Bytes, i: nat) { i + |m| <= |b| && b[i..i + |m|] == m }

  /** The first occurrence of `m` at or after `i`. */
  function Find(b: Bytes, m: Bytes, i: nat): (r: Option<nat>)
    requires i <= |b|
    ensures r.Some? ==> i <= r.value && OccursAt(b, m, r.value) && forall j :: i <= j < r.value ==> !OccursAt(b, m, j)
    ensures r.None? ==> forall j :: i <= j ==> !OccursAt(b, m, j)
    decreases |b| - i
  {
    if OccursAt(b, m, i) then Some(i) else if i == |b| then None else Find(b, m, i + 1)
  }

  predicate Contains(b: Bytes, m: Bytes) { Find(b, m, 0).Some? }

  // ---- The endpoint frame ----

  predicate IsHexDigit(c: byte) { 48 <= c <= 57 || 97 <= c <= 102 }

  predicate IsSessionId(id: Bytes) { |id| == 32 && forall i :: 0 <= i < 32 ==> IsHexDigit(id[i]) }

  function Eol(cr: bool): Bytes { if cr then [CR, LF] else [LF] }

  /** Text of a frame line: no control bytes, so in particular no line ends. */
  ghost predicate Plain(text: Bytes) { forall i :: 0 <= i < |text| ==> text[i] >= 32 }

  /** A frame of two lines; each flag says whether that line end is CR LF or a bare LF. */
  function TwoLines(first: Bytes, second: Bytes, cr1: bool, cr2: bool, cr3: bool): Bytes {
    first + (Eol(cr1) + (second + (Eol(cr2) + Eol(cr3))))
  }

  /** The endpoint frame for `id`. */
  function EndpointFrame(id: Bytes, cr1: bool, cr2: bool, cr3: bool): Bytes {
    TwoLines(EVENT_LINE, DATA_PREFIX + id, cr1, cr2, cr3)
  }

  function SkipText(f: Bytes, text: Bytes): Option<Bytes> {
    if text <= f then Some(f[|text|..]) else None
  }

  function SkipEol(f: Bytes): Option<Bytes> {
    if Eol(false) <= f then Some(f[1..]) else if Eol(true) <= f then Some(f[2..]) else None
  }

  /** A blank line and then the end: the last thing the pattern asks for. */
  predicate EndsFrame(f: Bytes) {
    match SkipEol(f)
    case None => false
    case Some(g) => SkipEol(g) == Some([])
  }

  /** The anchored pattern of the source, with its fixed texts as parameters; its second group is the session id. */
  function MatchLines(first: Bytes, prefix: Bytes, f: Bytes): Option<Bytes> {
    match SkipText(f, first)
    case None => None
    case Some(f1) =>
      match SkipEol(f1)
      case None => None
      case Some(f2) =>
        match SkipText(f2, prefix)
        case None => None
        case Some(f3) =>
          if 32 <= |f3| && IsSessionId(f3[..32]) && EndsFrame(f3[32..]) then Some(f3[..32]) else None
  }

  function MatchEndpoint(f: Bytes): Option<Bytes> { MatchLines(EVENT_LINE, DATA_PREFIX, f) }

  lemma SkipsText(text: Bytes, rest: Bytes)
    ensures SkipText(text + rest, text) == Some(rest)
  {
  }

  lemma SkipsEol(cr: bool, rest: Bytes)
    ensures SkipEol(Eol(cr) + rest) == Some(rest)
  {
    assert (Eol(cr) + rest)[0] == Eol(cr)[0];
    assert Eol(cr) <= Eol(cr) + rest;
    assert (Eol(cr) + rest)[|Eol(cr)|..] == rest;
  }

  lemma SkippedText(f: Bytes, text: Bytes)
    requires SkipText(f, text).Some?
    ensures f == text + SkipText(f, text).value
  {
  }

  lemma SkippedEol(f: Bytes) returns (cr: bool)
    requires SkipEol(f).Some?
    ensures f == Eol(cr) + SkipEol(f).value
  {
    cr := !(Eol(false) <= f);
  }

  /** The pattern accepts all eight forms of the endpoint frame ... */
  lemma LinesMatch(first: Bytes, prefix: Bytes, id: Bytes, cr1: bool, cr2: bool, cr3: bool)
    requires IsSessionId(id)
    ensures MatchLines(first, prefix, TwoLines(first, prefix + id, cr1, cr2, cr3)) == Some(id)
  {
    var end := Eol(cr2) + Eol(cr3);
    var f2 := prefix + (id + end);
    assert f2 == (prefix + id) + end;
    SkipsText(first, Eol(cr1) + f2);
    SkipsEol(cr1, f2);
    SkipsText(prefix, id + end);
    assert (id + end)[..32] == id && (id + end)[32..] == end;
    EndMatches(cr2, cr3);
  }

  lemma EndMatches(cr2: bool, cr3: bool)
    ensures EndsFrame(Eol(cr2) + Eol(cr3))
  {
    SkipsEol(cr2, Eol(cr3));
    assert Eol(cr3) + [] == Eol(cr3);
    SkipsEol(cr3, []);
  }

  lemma FrameMatches(id: Bytes, cr1: bool, cr2: bool, cr3: bool)
    requires IsSessionId(id)
    ensures MatchEndpoint(EndpointFrame(id, cr1, cr2, cr3)) == Some(id)
  {
    LinesMatch(EVENT_LINE, DATA_PREFIX, id, cr1, cr2, cr3);
  }

  /** ... and nothing else. */
  lemma MatchedIsLines(first: Bytes, prefix: Bytes, f: Bytes) returns (id: Bytes, cr1: bool, cr2: bool, cr3: bool)
    requires MatchLines(first, prefix, f).Some?
    ensures IsSessionId(id) && f == TwoLines(first, prefix + id, cr1, cr2, cr3)
  {
    id := MatchLines(first, prefix, f).value;
    SkippedText(f, first);
    var f1 := SkipText(f, first).value;
    cr1 := SkippedEol(f1);
    var f2 := SkipEol(f1).value;
    SkippedText(f2, prefix);
    var f3 := SkipText(f2, prefix).value;
    cr2, cr3 := MatchedEnd(f3[32..]);
    var end := Eol(cr2) + Eol(cr3);
    assert f3 == id + end;
    assert f2 == (prefix + id) + end;
  }

  lemma MatchedEnd(f: Bytes) returns (cr2: bool, cr3: bool)
    requires EndsFrame(f)
    ensures f == Eol(cr2) + Eol(cr3)
  {
    cr2 := SkippedEol(f);
    cr3 := SkippedEol(SkipEol(f).value);
  }

  lemma MatchedIsFrame(f: Bytes) returns (id: Bytes, cr1: bool, cr2: bool, cr3: bool)
    requires MatchEndpoint(f).Some?
    ensures IsSessionId(id) && f == EndpointFrame(id, cr1, cr2, cr3)
  {
    id, cr1, cr2, cr3 := MatchedIsLines(EVENT_LINE, DATA_PREFIX, f);
  }

  /** The frame, spelled out: an event line, a data line with the session's address, and a blank line. */
  lemma FrameIsSpelled(id: Bytes, cr1: bool, cr2: bool, cr3: bool)
    ensures EndpointFrame(id, cr1, cr2, cr3) ==
            Ascii("event: endpoint") + (if cr1 then [13, 10] else [10])
            + Ascii("data: /mcp/messages/?session_id=") + id
            + (if cr2 then [13, 10] else [10]) + (if cr3 then [13, 10] else [10])
  {
    Regroup(EVENT_LINE, Eol(cr1), DATA_PREFIX, id, Eol(cr2), Eol(cr3));
  }

  lemma Regroup(a: Bytes, b: Bytes, c: Bytes, d: Bytes, e: Bytes, f: Bytes)
    ensures a + (b + ((c + d) + (e + f))) == a + b + c + d + e + f
  {
  }

  /** A session id consists of 32 hexadecimal digits in lower case. */
  lemma SessionIdIff(id: Bytes)
    ensures IsSessionId(id) <==> |id| == 32 && forall i :: 0 <= i < |id| ==> id[i] in Ascii("0123456789abcdef")
  {
    forall c: byte
      ensures IsHexDigit(c) <==> c in Ascii("0123456789abcdef")
    {
      HexDigits(c);
    }
  }

  lemma HexDigits(c: byte)
    ensures IsHexDigit(c) <==> c in Ascii("0123456789abcdef")
  {
    var digits := Ascii("0123456789abcdef");
    if 48 <= c <= 57 {
      assert digits[c as int - 48] == c;
    }
    if 97 <= c <= 102 {
      assert digits[c as int - 87] == c;
    }
  }

  // ---- The gate ----

  class Gate {
    var promoted: bool
    var session: Option<Bytes>
    var buffered: seq<Message>
    var firstFrame: Bytes
    var responseStarted: bool
    var sent: seq<Message>

    constructor ()
      ensures Fresh()
    {
      promoted, session, buffered, firstFrame, responseStarted, sent := false, None, [], [], false, [];
    }

    ghost predicate Fresh()
      reads this
    {
      !promoted && session == None && buffered == [] && firstFrame == [] && !responseStarted && sent == []
    }

    /** The gate after the SDK has handed over `got`, as long as it has not rejected anything. */
    ghost predicate Holding(got: seq<Message>)
      reads this
    {
      && (promoted ==> sent == got && buffered == [] && session.Some?)
      && (!promoted ==> sent == [] && buffered == got && firstFrame == BytesOf(got) && !responseStarted)
    }

    /**
     The wrapped `send`. `accept` is the answer of the registry's promotion
     section; a result of `true` means that the first frame was rejected.
     */
    method GuardedSend(message: Message, accept: bool, ghost got: seq<Message>) returns (rejected: bool)
      requires Holding(got)
      modifies this
      ensures rejected <==> !old(promoted) && message.ResponseBody? &&
                            Rejects(BytesOf(got + [message]), accept)
      ensures rejected ==> sent == [] && !responseStarted && !promoted
      ensures !rejected ==> Holding(got + [message])
      ensures !rejected ==> promoted == (old(promoted)
                                         || (message.ResponseBody? && Promotes(BytesOf(got + [message]), accept)))
      ensures promoted && !old(promoted) ==> session == MatchEndpoint(BytesOf(got + [message]))
      ensures old(promoted) ==> session == old(session)
    {
      assert (got + [message])[..|got|] == got;
      if promoted {
        responseStarted := true;
        sent := sent + [message];
        return false;
      }
      buffered := buffered + [message];
      if message.ResponseBody? {
        firstFrame := firstFrame + message.body;
        var id, malformed := Recognise(firstFrame);
        if malformed {
          return true;
        }
        if id.None? {
          return false;
        }
        session := id;
        if !accept {
          return true;
        }
        Flush();
      }
      return false;
    }

    method Flush()
      requires session.Some? && sent == []
      modifies this
      ensures promoted && buffered == [] && sent == old(buffered)
      ensures session == old(session) && firstFrame == old(firstFrame)
    {
      promoted := true;
      while buffered != []
        invariant sent + buffered == old(buffered) && promoted
        invariant session == old(session) && firstFrame == old(firstFrame)
        decreases |buffered|
      {
        responseStarted := true;
        sent := sent + [buffered[0]];
        buffered := buffered[1..];
      }
    }

    /** The GET handler around the SDK, which hands over `messages` one by one and stops when a send raises. */
    method Serve(messages: seq<Message>, accept: bool)
      requires Fresh()
      modifies this
      ensures promoted <==> accept && exists n: nat :: n <= |messages| && Promotable(BytesOf(messages[..n]))
      ensures promoted ==> sent == messages
      ensures !promoted ==>
                sent == if exists n: nat :: DecisiveAt(messages, n)
                        then [ResponseStart(503), ResponseBody(Ascii("{\"error\":\"mcp_unavailable\"}"))] else []
      ensures promoted ==> exists n: nat :: n <= |messages| && session == MatchEndpoint(BytesOf(messages[..n]))
    {
      var i := 0;
      while i < |messages|
        invariant i <= |messages| && Holding(messages[..i])
        invariant !promoted ==> forall n: nat :: n <= i ==> !DecisiveAt(messages, n)
        invariant promoted ==> accept && exists n: nat :: n <= i && Promotable(BytesOf(messages[..n]))
                                                    && session == MatchEndpoint(BytesOf(messages[..n]))
      {
        assert messages[..i + 1] == messages[..i] + [messages[i]];
        var rejected := GuardedSend(messages[i], accept, messages[..i]);
        PromotesIsPromotable(BytesOf(messages[..i + 1]), accept);
        if rejected {
          if !responseStarted {
            sent := sent + UNAVAILABLE;
          }
          assert DecisiveAt(messages, i + 1);
          FirstDecisionIsFinal(messages, i + 1, accept);
          return;
        }
        i := i + 1;
      }
      assert messages[..i] == messages;
      if !promoted {
        NoDecisionNoFrame(messages);
      }
    }
  }

  /** Looks for the endpoint frame in the bytes so far: malformed, not decided yet, or the session id. */
  method Recognise(b: Bytes) returns (id: Option<Bytes>, malformed: bool)
    ensures malformed <==> Decisive(b) && !(|b| <= 4096 && MatchEndpoint(b).Some?)
    ensures !malformed ==> id == if Decisive(b) then MatchEndpoint(b) else None
  {
    id, malformed := None, false;
    if |b| > MAX_FIRST_FRAME_BYTES {
      return None, true;
    }
    var marker := if Contains(b, BLANK_CRLF) then BLANK_CRLF else BLANK_LF;
    var at := Find(b, marker, 0);
    if at.Some? {
      var frame, remainder := b[..at.value], b[at.value + |marker|..];
      id := MatchEndpoint(frame + marker);
      SplitDecides(b, marker, at.value);
      malformed := id.None? || remainder != [];
    }
  }

  /** The bytes of all body messages. */
  function BytesOf(ms: seq<Message>): Bytes {
    if ms == [] then []
    else BytesOf(ms[..|ms| - 1]) + if ms[|ms| - 1].ResponseBody? then ms[|ms| - 1].body else []
  }

  predicate HasBlankLine(b: Bytes) { Contains(b, BLANK_CRLF) || Contains(b, BLANK_LF) }

  /** The gate decides as soon as it has seen too many bytes or a blank-line marker. */
  predicate Decisive(b: Bytes) { |b| > MAX_FIRST_FRAME_BYTES || HasBlankLine(b) }

  predicate Promotes(b: Bytes, accept: bool) {
    |b| <= MAX_FIRST_FRAME_BYTES && HasBlankLine(b) && MatchEndpoint(b).Some? && accept
  }

  predicate Rejects(b: Bytes, accept: bool) { Decisive(b) && !Promotes(b, accept) }

  predicate DecisiveAt(ms: seq<Message>, n: nat) {
    0 < n <= |ms| && ms[n - 1].ResponseBody? && Decisive(BytesOf(ms[..n]))
  }

  /** The frames that can open a session: all forms but the one that ends in LF CR LF. */
  ghost predicate Promotable(b: Bytes) {
    exists id, cr1, cr2, cr3 :: IsSessionId(id) && b == EndpointFrame(id, cr1, cr2, cr3) && (cr3 ==> cr2)
  }

  // ---- Where the markers of a frame are ----

  lemma FrameTextIsPlain(id: Bytes)
    requires IsSessionId(id)
    ensures Plain(EVENT_LINE) && Plain(DATA_PREFIX + id) && |DATA_PREFIX + id| > 32
    ensures |EVENT_LINE| + |DATA_PREFIX + id| < 100
  {
  }

  lemma LineEnds(first: Bytes, second: Bytes, cr1: bool, cr2: bool, cr3: bool, i: nat)
    requires Plain(first) && Plain(second)
    requires i < |TwoLines(first, second, cr1, cr2, cr3)|
    ensures var f := TwoLines(first, second, cr1, cr2, cr3);
            var p1 := |first| + |Eol(cr1)| - 1;
            var p2 := p1 + |second| + |Eol(cr2)|;
            var p3 := p2 + |Eol(cr3)|;
            && |f| == p3 + 1
            && (f[i] == LF <==> i == p1 || i == p2 || i == p3)
            && (f[i] == CR <==> (cr1 && i == p1 - 1) || (cr2 && i == p2 - 1) || (cr3 && i == p3 - 1))
  {
  }

  /** A frame holds a blank-line marker only as its very end, and the LF CR LF form holds none at all. */
  lemma MarkersOfLines(first: Bytes, second: Bytes, cr1: bool, cr2: bool, cr3: bool, j: nat)
    requires Plain(first) && Plain(second) && |second| > 32
    ensures var f := TwoLines(first, second, cr1, cr2, cr3);
            && (OccursAt(f, BLANK_LF, j) <==> !cr3 && j + 2 == |f|)
            && (OccursAt(f, BLANK_CRLF, j) <==> cr2 && cr3 && j + 4 == |f|)
  {
    var f := TwoLines(first, second, cr1, cr2, cr3);
    if j + 2 <= |f| {
      assert f[j..j + 2] == [f[j], f[j + 1]];
      LineFeedPairs(first, second, cr1, cr2, cr3, j);
    }
    if j + 4 <= |f| {
      assert f[j..j + 4] == [f[j], f[j + 1], f[j + 2], f[j + 3]];
      LineEndPairs(first, second, cr1, cr2, cr3, j);
    }
  }

  lemma LineFeedPairs(first: Bytes, second: Bytes, cr1: bool, cr2: bool, cr3: bool, j: nat)
    requires Plain(first) && Plain(second) && |second| > 32
    requires j + 2 <= |TwoLines(first, second, cr1, cr2, cr3)|
    ensures var f := TwoLines(first, second, cr1, cr2, cr3);
            f[j] == LF && f[j + 1] == LF <==> !cr3 && j + 2 == |f|
  {
    LineEnds(first, second, cr1, cr2, cr3, j);
    LineEnds(first, second, cr1, cr2, cr3, j + 1);
  }

  lemma LineEndPairs(first: Bytes, second: Bytes, cr1: bool, cr2: bool, cr3: bool, j: nat)
    requires Plain(first) && Plain(second) && |second| > 32
    requires j + 4 <= |TwoLines(first, second, cr1, cr2, cr3)|
    ensures var f := TwoLines(first, second, cr1, cr2, cr3);
            f[j] == CR && f[j + 1] == LF && f[j + 2] == CR && f[j + 3] == LF <==> cr2 && cr3 && j + 4 == |f|
  {
    LineEnds(first, second, cr1, cr2, cr3, j);
    LineEnds(first, second, cr1, cr2, cr3, j + 1);
    LineEnds(first, second, cr1, cr2, cr3, j + 2);
    LineEnds(first, second, cr1, cr2, cr3, j + 3);
  }

  lemma MarkersOfFrame(id: Bytes, cr1: bool, cr2: bool, cr3: bool, j: nat)
    requires IsSessionId(id)
    ensures var f := EndpointFrame(id, cr1, cr2, cr3);
            && (OccursAt(f, BLANK_LF, j) <==> !cr3 && j + 2 == |f|)
            && (OccursAt(f, BLANK_CRLF, j) <==> cr2 && cr3 && j + 4 == |f|)
            && |f| < 110
  {
    FrameTextIsPlain(id);
    MarkersOfLines(EVENT_LINE, DATA_PREFIX + id, cr1, cr2, cr3, j);
  }

  /** A prefix of a frame is decisive only when it is the whole frame, and only for the promotable forms. */
  lemma PrefixesOfFrame(id: Bytes, cr1: bool, cr2: bool, cr3: bool, b: Bytes)
    requires IsSessionId(id) && b <= EndpointFrame(id, cr1, cr2, cr3)
    ensures Decisive(b) <==> b == EndpointFrame(id, cr1, cr2, cr3) && (cr3 ==> cr2)
  {
    var f := EndpointFrame(id, cr1, cr2, cr3);
    forall j: nat, m | m == BLANK_LF || m == BLANK_CRLF
      ensures OccursAt(b, m, j) <==> j + |m| <= |b| && OccursAt(f, m, j)
    {
      if j + |m| <= |b| {
        assert b[j..j + |m|] == f[j..j + |m|];
      }
    }
    forall j: nat
      ensures OccursAt(f, BLANK_LF, j) <==> !cr3 && j + 2 == |f|
      ensures OccursAt(f, BLANK_CRLF, j) <==> cr2 && cr3 && j + 4 == |f|
    {
      MarkersOfFrame(id, cr1, cr2, cr3, j);
    }
    if b == f && (cr3 ==> cr2) {
      assert OccursAt(f, BLANK_LF, |f| - 2) || OccursAt(f, BLANK_CRLF, |f| - 4);
    }
  }

  lemma WholeFrameHasNoRemainder(b: Bytes)
    requires MatchEndpoint(b).Some?
    ensures forall j: nat :: OccursAt(b, BLANK_LF, j) ==> j + 2 == |b|
    ensures forall j: nat :: OccursAt(b, BLANK_CRLF, j) ==> j + 4 == |b|
  {
    var id, cr1, cr2, cr3 := MatchedIsFrame(b);
    forall j: nat
      ensures OccursAt(b, BLANK_LF, j) ==> j + 2 == |b|
      ensures OccursAt(b, BLANK_CRLF, j) ==> j + 4 == |b|
    {
      MarkersOfFrame(id, cr1, cr2, cr3, j);
    }
  }

  /** Splitting at the first marker accepts exactly the byte strings that match as a whole. */
  lemma SplitDecides(b: Bytes, marker: Bytes, at: nat)
    requires marker == BLANK_CRLF || marker == BLANK_LF
    requires OccursAt(b, marker, at)
    ensures MatchEndpoint(b[..at] + marker).Some? && b[at + |marker|..] == [] ==> b[..at] + marker == b
    ensures MatchEndpoint(b).Some? ==> b[..at] + marker == b && b[at + |marker|..] == []
  {
    assert b == b[..at] + marker + b[at + |marker|..];
    if MatchEndpoint(b).Some? {
      WholeFrameHasNoRemainder(b);
    }
  }

  /** The gate's decision on a byte string is exactly promotability. */
  lemma PromotesIsPromotable(b: Bytes, accept: bool)
    ensures Promotes(b, accept) <==> Promotable(b) && accept
  {
    if MatchEndpoint(b).Some? {
      var id, cr1, cr2, cr3 := MatchedIsFrame(b);
      PrefixesOfFrame(id, cr1, cr2, cr3, b);
    }
    if Promotable(b) {
      var id, cr1, cr2, cr3 :| IsSessionId(id) && b == EndpointFrame(id, cr1, cr2, cr3) && (cr3 ==> cr2);
      FrameMatches(id, cr1, cr2, cr3);
      PrefixesOfFrame(id, cr1, cr2, cr3, b);
    }
  }

  // ---- Over any chunking ----

  lemma {:induction false} BytesGrow(ms: seq<Message>, m: nat, n: nat)
    requires m <= n <= |ms|
    ensures BytesOf(ms[..m]) <= BytesOf(ms[..n])
    decreases n
  {
    if m < n {
      BytesGrow(ms, m, n - 1);
      assert ms[..n][..n - 1] == ms[..n - 1];
    }
  }

  lemma {:induction false} FrameIsDecided(ms: seq<Message>, n: nat) returns (m: nat)
    requires n <= |ms| && Promotable(BytesOf(ms[..n]))
    ensures m <= n && DecisiveAt(ms, m)
  {
    PromotesIsPromotable(BytesOf(ms[..n]), true);
    if n > 0 {
      assert ms[..n][..n - 1] == ms[..n - 1];
      if ms[n - 1].ResponseBody? {
        m := n;
      } else {
        m := FrameIsDecided(ms, n - 1);
      }
    }
  }

  lemma NoDecisionNoFrame(ms: seq<Message>)
    requires forall n: nat :: n <= |ms| ==> !DecisiveAt(ms, n)
    ensures forall n: nat :: n <= |ms| ==> !Promotable(BytesOf(ms[..n]))
  {
    forall n: nat | n <= |ms|
      ensures !Promotable(BytesOf(ms[..n]))
    {
      if Promotable(BytesOf(ms[..n])) {
        var m := FrameIsDecided(ms, n);
        assert false;
      }
    }
  }

  lemma FirstDecisionIsFinal(ms: seq<Message>, m: nat, accept: bool)
    requires DecisiveAt(ms, m) && forall n: nat :: n < m ==> !DecisiveAt(ms, n)
    requires Rejects(BytesOf(ms[..m]), accept)
    ensures accept ==> forall n: nat :: n <= |ms| ==> !Promotable(BytesOf(ms[..n]))
  {
    var b := BytesOf(ms[..m]);
    forall n: nat | n <= |ms|
      ensures Promotable(BytesOf(ms[..n])) ==> !accept
    {
      if Promotable(BytesOf(ms[..n])) {
        var k := FrameIsDecided(ms, n);
        BytesGrow(ms, m, n);
        var f := BytesOf(ms[..n]);
        var id, cr1, cr2, cr3 :| IsSessionId(id) && f == EndpointFrame(id, cr1, cr2, cr3) && (cr3 ==> cr2);
        PrefixesOfFrame(id, cr1, cr2, cr3, b);
        PromotesIsPromotable(b, accept);
      }
    }
  }

  /** An SDK whose stream begins with the LF CR LF form never gets a session, however it is chunked. */
  lemma MixedFormNeverPromotes(ms: seq<Message>, id: Bytes, cr1: bool, n: nat)
    requires IsSessionId(id) && EndpointFrame(id, cr1, false, true) <= BytesOf(ms) && n <= |ms|
    ensures !Promotable(BytesOf(ms[..n]))
  {
    assert ms[..|ms|] == ms;
    BytesGrow(ms, n, |ms|);
    var f := BytesOf(ms[..n]);
    if Promotable(f) {
      var id', cr1', cr2', cr3' :| IsSessionId(id') && f == EndpointFrame(id', cr1', cr2', cr3') && (cr3' ==> cr2');
      FramesDiffer(id, cr1, id', cr1', cr2', cr3', BytesOf(ms));
    }
  }

  lemma FramesDiffer(id: Bytes, cr1: bool, id': Bytes, cr1': bool, cr2': bool, cr3': bool, b: Bytes)
    requires IsSessionId(id) && IsSessionId(id') && (cr3' ==> cr2')
    requires EndpointFrame(id, cr1, false, true) <= b
    ensures !(EndpointFrame(id', cr1', cr2', cr3') <= b)
  {
    FrameTextIsPlain(id);
    FrameTextIsPlain(id');
    LinesDiffer(EVENT_LINE, DATA_PREFIX + id, cr1, DATA_PREFIX + id', cr1', cr2', cr3', b);
  }

  /** Where two such texts part: at a line end that only one of them writes with CR. */
  lemma LinesDifferAt(first: Bytes, second: Bytes, cr1: bool, second': Bytes, cr1': bool, cr2': bool, cr3': bool)
    returns (i: nat)
    requires Plain(first) && Plain(second) && Plain(second') && |second| == |second'| > 32 && (cr3' ==> cr2')
    ensures var f, f' := TwoLines(first, second, cr1, false, true), TwoLines(first, second', cr1', cr2', cr3');
            i < |f| && i < |f'| && f[i] != f'[i]
  {
    var q := |first| + |Eol(cr1)| + |second|;
    i := if cr1 != cr1' then |first| else if cr2' then q else q + 1;
    LineEnds(first, second, cr1, false, true, i);
    LineEnds(first, second', cr1', cr2', cr3', i);
  }

  lemma LinesDiffer(first: Bytes, second: Bytes, cr1: bool,
                    second': Bytes, cr1': bool, cr2': bool, cr3': bool, b: Bytes)
    requires Plain(first) && Plain(second) && Plain(second') && |second| == |second'| > 32 && (cr3' ==> cr2')
    requires TwoLines(first, second, cr1, false, true) <= b
    ensures !(TwoLines(first, second', cr1', cr2', cr3') <= b)
  {
    var i := LinesDifferAt(first, second, cr1, second', cr1', cr2', cr3');
    assert TwoLines(first, second, cr1, false, true)[i] == b[i];
  }
}
