/** The NATS client protocol as a server writes it (PING, +OK, INFO, MSG and HMSG) and the pure
    parts of the reader in anvil_events/transport/protocol.py. */
module WireFormat {
  import opened Basics
  import Identity

  type byte = b: int | 0 <= b < 256

  type Bytes = seq<byte>

  const CR: byte := 13
  const LF: byte := 10
  const SPACE: byte := 32
  const DOT: byte := 46

  const CRLF: Bytes := [13, 10]
  const PING: Bytes := [80, 73, 78, 71]
  const PONG_LINE: Bytes := [80, 79, 78, 71, 13, 10]
  const OK: Bytes := [43, 79, 75]
  const INFO: Bytes := [73, 78, 70, 79, 32]
  const ERR: Bytes := [45, 69, 82, 82]
  const MSG: Bytes := [77, 83, 71]
  const HMSG: Bytes := [72, 77, 83, 71]

  const MAX_BODY := 1024 * 1024 - 1024
  const RECV_SIZE := 65536

  datatype Message = Message(subject: Bytes, sid: nat, reply: Option<Bytes>, body: Bytes)

  datatype WireError =
    | ConnectionClosed | BufferOverflow | ServerError(line: Bytes) | FrameTooLarge | BadTerminator
    | Malformed | UnknownLine | InvalidSubject

  // ---------------------------------------------------------------------------------
  // Lines
  // ---------------------------------------------------------------------------------

  /** The position of the first CR LF. */
  function Find(s: Bytes): (at: Option<nat>)
    ensures at.Some? ==> at.value + 2 <= |s| && s[at.value..at.value + 2] == CRLF
  {
    if |s| < 2 then None
    else if s[0] == CR && s[1] == LF then
      assert s[0..2] == [s[0], s[1]];
      Some(0)
    else
      match Find(s[1..])
      case None => None
      case Some(i) =>
        assert s[i + 1..i + 3] == s[1..][i..i + 2];
        Some(i + 1)
  }

  predicate StartsWith(s: Bytes, prefix: Bytes) {
    prefix <= s
  }

  lemma {:induction false} FindInPrefix(s: Bytes, more: Bytes)
    ensures Find(s).Some? ==> Find(s + more) == Find(s)
    ensures Find(s).None? && Find(s + more).Some? ==> Find(s + more).value + 1 >= |s|
  {
    if |s| >= 2 && !(s[0] == CR && s[1] == LF) {
      FindInPrefix(s[1..], more);
      assert (s + more)[1..] == s[1..] + more;
    }
  }

  lemma {:induction false} FindAfterLine(line: Bytes, rest: Bytes)
    requires Find(line) == None
    ensures Find(line + CRLF + rest) == Some(|line|)
  {
    var s := line + CRLF + rest;
    if line == [] {
      assert s[0] == CR && s[1] == LF;
    } else {
      assert s[1..] == line[1..] + CRLF + rest;
      FindAfterLine(line[1..], rest);
      if |line| == 1 {
        assert s[1] == CR;
      }
    }
  }

  // ---------------------------------------------------------------------------------
  // Tokens
  // ---------------------------------------------------------------------------------

  /** The tokens between occurrences of `sep`. */
  function Split(s: Bytes, sep: byte): (parts: seq<Bytes>)
    ensures parts != []
  {
    if s == [] then [[]]
    else
      var rest := Split(s[1..], sep);
      if s[0] == sep then [[]] + rest else [[s[0]] + rest[0]] + rest[1..]
  }

  function Join(tokens: seq<Bytes>, sep: byte): Bytes
    requires tokens != []
  {
    if |tokens| == 1 then tokens[0] else tokens[0] + [sep] + Join(tokens[1..], sep)
  }

  lemma {:induction false} SplitToken(token: Bytes, tail: Bytes, sep: byte)
    requires sep !in token
    ensures Split(token + [sep] + tail, sep) == [token] + Split(tail, sep)
    ensures Split(token, sep) == [token]
  {
    if token == [] {
      assert (token + [sep] + tail)[1..] == tail;
    } else {
      SplitToken(token[1..], tail, sep);
      assert (token + [sep] + tail)[1..] == token[1..] + [sep] + tail;
      assert [token[0]] + token[1..] == token;
    }
  }

  lemma {:induction false} SplitJoined(tokens: seq<Bytes>, sep: byte)
    requires tokens != [] && forall i :: 0 <= i < |tokens| ==> sep !in tokens[i]
    ensures Split(Join(tokens, sep), sep) == tokens
  {
    SplitToken(tokens[0], [], sep);
    if |tokens| <= 1 {
    } else {
      SplitJoined(tokens[1..], sep);
      SplitToken(tokens[0], Join(tokens[1..], sep), sep);
    }
  }

  lemma {:induction false} JoinSplits(s: Bytes, sep: byte)
    ensures Join(Split(s, sep), sep) == s
    ensures forall i :: 0 <= i < |Split(s, sep)| ==> sep !in Split(s, sep)[i]
  {
    if s == [] {
    } else {
      JoinSplits(s[1..], sep);
      var rest := Split(s[1..], sep);
      if s[0] == sep {
        assert Split(s, sep)[1..] == rest;
        assert [] + [sep] + s[1..] == s;
      } else {
        var parts := Split(s, sep);
        assert parts[1..] == rest[1..];
        if |rest| > 1 {
          assert [s[0]] + rest[0] + [sep] + Join(rest[1..], sep) == [s[0]] + Join(rest, sep);
        }
      }
    }
  }

  function Chars(s: Bytes): string {
    seq(|s|, i requires 0 <= i < |s| => s[i] as char)
  }

  function Raw(s: string): Bytes
    requires Identity.AllDigits(s)
  {
    seq(|s|, i requires 0 <= i < |s| => s[i] as int)
  }

  function Decimal(n: nat): Bytes {
    Raw(Identity.Decimal(n))
  }

  predicate DigitToken(token: Bytes) {
    token != [] && Identity.AllDigits(Chars(token))
  }

  function ParseUint(token: Bytes): Option<nat> {
    if DigitToken(token) then Some(Identity.Number(Chars(token))) else None
  }

  lemma ParseDecimal(n: nat)
    ensures ParseUint(Decimal(n)) == Some(n)
    ensures forall i :: 0 <= i < |Decimal(n)| ==> 48 <= Decimal(n)[i] <= 57
  {
    var s := Identity.Decimal(n);
    assert Chars(Raw(s)) == s;
    Identity.NumberOfDecimal(n);
  }

  /** White space of a text; bytes beyond ASCII are not modelled as characters. */
  predicate Blank(b: byte) {
    9 <= b <= 13 || 28 <= b <= 32
  }

  /** `validate_wire_subject` without wildcards. */
  predicate ValidSubject(s: Bytes) {
    && s != [] && s[0] != DOT && s[|s| - 1] != DOT
    && (forall i :: 0 <= i < |s| ==> !Blank(s[i]) && s[i] != 42 && s[i] != 62)
    && (forall i :: 0 <= i < |s| - 1 ==> !(s[i] == DOT && s[i + 1] == DOT))
  }

  // ---------------------------------------------------------------------------------
  // The grammar of subjects
  // ---------------------------------------------------------------------------------

  /** Tab, line feed, vertical tab, form feed, carriage return, the four separators, and space. */
  const WHITE: set<int> := {9, 10, 11, 12, 13, 28, 29, 30, 31, 32}

  /** No white space, `.`, `*` or `>`. */
  predicate PlainToken(token: Bytes) {
    forall i :: 0 <= i < |token| ==> token[i] !in WHITE && token[i] != 46 && token[i] != 42 && token[i] != 62
  }

  ghost predicate SubjectTokens(tokens: seq<Bytes>) {
    tokens != [] && forall i :: 0 <= i < |tokens| ==> tokens[i] != [] && PlainToken(tokens[i])
  }

  /** A subject: non-empty tokens of such characters, joined by dots. */
  ghost predicate IsSubject(s: Bytes) {
    exists tokens :: SubjectTokens(tokens) && s == Join(tokens, 46)
  }

  /** A valid subject behind a token and a dot. */
  lemma ValidTail(token: Bytes, tail: Bytes)
    requires DOT !in token
    ensures ValidSubject(token) <==> token != [] && PlainToken(token)
    ensures ValidSubject(token + [DOT] + tail) <==> token != [] && PlainToken(token) && ValidSubject(tail)
  {
    var s := token + [DOT] + tail;
    if ValidSubject(token + [DOT] + tail) {
      assert s[0] == if token == [] then DOT else token[0];
      assert tail != [] by {
        assert s[|s| - 1] == if tail == [] then DOT else tail[|tail| - 1];
      }
      assert forall i :: 0 <= i < |token| ==> s[i] == token[i];
      assert forall i :: 0 <= i < |tail| ==> s[|token| + 1 + i] == tail[i];
      assert s[|token|] == DOT && s[|token| + 1] == tail[0];
      forall i | 0 <= i < |tail| - 1
        ensures !(tail[i] == DOT && tail[i + 1] == DOT)
      {
        assert s[|token| + 1 + i] == tail[i] && s[|token| + 1 + i + 1] == tail[i + 1];
      }
    }
  }

  /** Tokens without dots, joined by dots, are a valid subject if and only if each is non-empty and
      free of white space and wildcards. */
  lemma {:induction false} ValidSubjectOfTokens(tokens: seq<Bytes>)
    requires tokens != [] && forall i :: 0 <= i < |tokens| ==> 46 !in tokens[i]
    ensures ValidSubject(Join(tokens, 46)) <==> SubjectTokens(tokens)
  {
    if |tokens| <= 1 {
      ValidTail(tokens[0], []);
    } else {
      var rest := tokens[1..];
      ValidSubjectOfTokens(rest);
      ValidTail(tokens[0], Join(rest, DOT));
      assert SubjectTokens(tokens) <==> tokens[0] != [] && PlainToken(tokens[0]) && SubjectTokens(rest) by {
        assert tokens == [tokens[0]] + rest;
      }
    }
  }

  /** What the reader takes for a subject are exactly the subjects of the grammar. */
  lemma ValidSubjectExactly(s: Bytes)
    ensures ValidSubject(s) <==> IsSubject(s)
  {
    var tokens := Split(s, DOT);
    JoinSplits(s, DOT);
    ValidSubjectOfTokens(tokens);
    if IsSubject(s) {
      var words :| SubjectTokens(words) && s == Join(words, 46);
      ValidSubjectOfTokens(words);
    }
  }

  // ---------------------------------------------------------------------------------
  // Decoding a control line and its body
  // ---------------------------------------------------------------------------------

  /** A message control line: what to read next and how much of it to drop. */
  datatype Control = Control(parts: seq<Bytes>, replies: bool, dropped: nat, size: nat)

  function ParseControl(line: Bytes): (r: Result<Control, WireError>)
    ensures r.Success? ==> |r.value.parts| >= 4 && (r.value.replies ==> |r.value.parts| >= 5) && r.value.dropped <= r.value.size
  {
    var parts := Split(line, SPACE);
    if StartsWith(line, MSG + [SPACE]) then
      if |parts| != 4 && |parts| != 5 then Failure(Malformed)
      else
        match ParseUint(parts[|parts| - 1])
        case None => Failure(Malformed)
        case Some(size) => Success(Control(parts, |parts| == 5, 0, size))
    else if StartsWith(line, HMSG + [SPACE]) then
      if |parts| != 5 && |parts| != 6 then Failure(Malformed)
      else
        match (ParseUint(parts[|parts| - 2]), ParseUint(parts[|parts| - 1]))
        case (None, _) => Failure(Malformed)
        case (_, None) => Failure(Malformed)
        case (Some(header), Some(total)) =>
          if total < header then Failure(Malformed)
          else Success(Control(parts, |parts| == 6, header, total))
    else Failure(UnknownLine)
  }

  function Finish(c: Control, body: Bytes): Result<Message, WireError>
    requires |c.parts| >= 4 && (c.replies ==> |c.parts| >= 5) && c.dropped <= |body|
  {
    var reply := if c.replies then Some(c.parts[3]) else None;
    if !ValidSubject(c.parts[1]) || (reply.Some? && !ValidSubject(reply.value)) then Failure(InvalidSubject)
    else
      match ParseUint(c.parts[2])
      case None => Failure(Malformed)
      case Some(sid) =>
        if sid == 0 then Failure(Malformed)
        else Success(Message(c.parts[1], sid, reply, body[c.dropped..]))
  }

  // ---------------------------------------------------------------------------------
  // What a server writes
  // ---------------------------------------------------------------------------------

  datatype Frame =
    | PingFrame
    | OkFrame
    | InfoFrame(text: Bytes)
    | MsgFrame(message: Message)
    | HmsgFrame(message: Message, header: Bytes)

  predicate IsMessage(f: Frame) {
    f.MsgFrame? || f.HmsgFrame?
  }

  function Payload(f: Frame): Bytes
    requires IsMessage(f)
  {
    if f.MsgFrame? then f.message.body else f.header + f.message.body
  }

  /** The space-separated tokens of a MSG or HMSG control line. */
  function Tokens(f: Frame): seq<Bytes>
    requires IsMessage(f)
  {
    var m := f.message;
    [if f.MsgFrame? then MSG else HMSG, m.subject, Decimal(m.sid)]
    + (if m.reply.Some? then [m.reply.value] else [])
    + (if f.MsgFrame? then [] else [Decimal(|f.header|)])
    + [Decimal(|Payload(f)|)]
  }

  function Line(f: Frame): Bytes {
    match f
    case PingFrame => PING
    case OkFrame => OK
    case InfoFrame(text) => INFO + text
    case MsgFrame(_) => Join(Tokens(f), SPACE)
    case HmsgFrame(_, _) => Join(Tokens(f), SPACE)
  }

  /** What follows the control line. */
  function Tail(f: Frame): Bytes {
    if IsMessage(f) then Payload(f) + CRLF else []
  }

  function Encode(f: Frame): Bytes {
    Line(f) + CRLF + Tail(f)
  }

  function EncodeAll(frames: seq<Frame>): Bytes {
    if frames == [] then [] else Encode(frames[0]) + EncodeAll(frames[1..])
  }

  ghost predicate WellFormed(f: Frame) {
    && |Line(f)| <= 1047552
    && (f.InfoFrame? ==> Find(f.text) == None)
    && (IsMessage(f) ==>
          && IsSubject(f.message.subject) && f.message.sid > 0
          && (f.message.reply.Some? ==> IsSubject(f.message.reply.value))
          && |Payload(f)| <= 1047552)
  }

  /** The reader accepts the subjects of a well-formed message, and they are clean. */
  lemma SubjectsAreValid(f: Frame)
    requires IsMessage(f) && WellFormed(f)
    ensures ValidSubject(f.message.subject) && Clean(f.message.subject)
    ensures f.message.reply.Some? ==> ValidSubject(f.message.reply.value) && Clean(f.message.reply.value)
  {
    ValidSubjectExactly(f.message.subject);
    if f.message.reply.Some? {
      ValidSubjectExactly(f.message.reply.value);
    }
  }

  function Messages(frames: seq<Frame>): seq<Message> {
    if frames == [] then []
    else (if IsMessage(frames[0]) then [frames[0].message] else []) + Messages(frames[1..])
  }

  /** No byte of a control line's token is a space, CR or LF. */
  predicate Clean(s: Bytes) {
    forall i :: 0 <= i < |s| ==> s[i] != SPACE && s[i] != CR && s[i] != LF
  }

  lemma TokensAreClean(f: Frame)
    requires IsMessage(f) && WellFormed(f)
    ensures forall i :: 0 <= i < |Tokens(f)| ==> Clean(Tokens(f)[i])
  {
    var m := f.message;
    SubjectsAreValid(f);
    NumbersAreClean(m.sid);
    NumbersAreClean(|Payload(f)|);
    if f.HmsgFrame? {
      NumbersAreClean(|f.header|);
    }
  }

  lemma NumbersAreClean(n: nat)
    ensures Clean(Decimal(n))
  {
    ParseDecimal(n);
  }

  lemma {:induction false} NoLineEndInside(s: Bytes)
    requires forall i :: 0 <= i < |s| ==> s[i] != LF
    ensures Find(s) == None
  {
    if |s| < 2 {
    } else {
      NoLineEndInside(s[1..]);
    }
  }

  lemma {:induction false} JoinedIsOneLine(tokens: seq<Bytes>)
    requires tokens != [] && forall i :: 0 <= i < |tokens| ==> Clean(tokens[i])
    ensures forall i :: 0 <= i < |Join(tokens, SPACE)| ==> Join(tokens, SPACE)[i] != LF
  {
    if |tokens| <= 1 {
    } else {
      JoinedIsOneLine(tokens[1..]);
    }
  }

  /** A well-formed control line contains no line end and is none of the lines the reader refuses. */
  lemma LineIsPlain(f: Frame)
    requires WellFormed(f)
    ensures Find(Line(f)) == None && !StartsWith(Line(f), ERR)
  {
    match f
    case PingFrame => NoLineEndInside(PING);
    case OkFrame => NoLineEndInside(OK);
    case InfoFrame(text) => FindAfterPrefix(INFO, text);
    case _ =>
      TokensAreClean(f);
      JoinedIsOneLine(Tokens(f));
      NoLineEndInside(Line(f));
      assert Line(f)[0] == Tokens(f)[0][0];
  }

  lemma {:induction false} FindAfterPrefix(prefix: Bytes, text: Bytes)
    requires Find(text) == None && forall i :: 0 <= i < |prefix| ==> prefix[i] != CR
    ensures Find(prefix + text) == None
  {
    if prefix == [] {
      assert prefix + text == text;
    } else {
      FindAfterPrefix(prefix[1..], text);
      assert (prefix + text)[1..] == prefix[1..] + text;
    }
  }

  /** The control line of a message splits back into its tokens. */
  lemma LineSplits(f: Frame)
    requires IsMessage(f) && WellFormed(f)
    ensures Split(Line(f), SPACE) == Tokens(f)
    ensures Tokens(f)[0] + [SPACE] <= Line(f)
  {
    TokensAreClean(f);
    SplitJoined(Tokens(f), SPACE);
    assert Line(f) == Tokens(f)[0] + [SPACE] + Join(Tokens(f)[1..], SPACE);
  }

  /** Reading back what a server wrote for a message. */
  ghost predicate ReadsBack(f: Frame)
    requires IsMessage(f)
  {
    var c := ParseControl(Line(f));
    && c.Success? && c.value.size == |Payload(f)|
    && Finish(c.value, Payload(f)) == Success(f.message)
    && Line(f) != PING && Line(f) != OK && !StartsWith(Line(f), INFO)
  }

  lemma DecodesMsg(f: Frame)
    requires f.MsgFrame? && WellFormed(f)
    ensures ReadsBack(f)
  {
    var m := f.message;
    LineSplits(f);
    SubjectsAreValid(f);
    ParseDecimal(m.sid);
    ParseDecimal(|m.body|);
    assert Line(f)[0] == 77;
    assert m.body[0..] == m.body;
    var parts := Tokens(f);
    assert ParseControl(Line(f)) == Success(Control(parts, |parts| == 5, 0, |m.body|));
  }

  lemma DecodesHmsg(f: Frame)
    requires f.HmsgFrame? && WellFormed(f)
    ensures ReadsBack(f)
  {
    var m := f.message;
    LineSplits(f);
    SubjectsAreValid(f);
    ParseDecimal(m.sid);
    ParseDecimal(|f.header|);
    ParseDecimal(|Payload(f)|);
    assert Line(f)[0] == 72;
    assert Payload(f)[|f.header|..] == m.body;
    var parts := Tokens(f);
    assert ParseControl(Line(f)) == Success(Control(parts, |parts| == 6, |f.header|, |Payload(f)|));
  }

  lemma DecodesMessage(f: Frame)
    requires IsMessage(f) && WellFormed(f)
    ensures ReadsBack(f)
  {
    if f.MsgFrame? {
      DecodesMsg(f);
    } else {
      DecodesHmsg(f);
    }
  }

  predicate Numeral(token: Bytes, n: nat) {
    token != [] && Identity.AllDigits(Chars(token)) && Identity.Number(Chars(token)) == n
  }

  /** The tokens of a control line and the body behind it as the messages of a MSG or HMSG frame have them;
      `header` is the length of the header. */
  ghost predicate Spells(tokens: seq<Bytes>, payload: Bytes, m: Message, header: nat, headed: bool)
    requires |tokens| > 2
  {
    var before := [if headed then HMSG else MSG, m.subject] + [tokens[2]] + (if m.reply.Some? then [m.reply.value] else []);
    && |tokens| == |before| + (if headed then 2 else 1) && tokens[..|before|] == before
    && Numeral(tokens[2], m.sid) && Numeral(tokens[|tokens| - 1], |payload|)
    && (if headed then Numeral(tokens[|tokens| - 2], header) else header == 0)
    && header <= |payload| && m.body == payload[header..]
  }

  /** What the reader decodes is grammatical: a MSG or HMSG line with nothing missing and nothing more, subjects
      of the grammar, a positive subscription id, and the payload without its header. */
  lemma DecodedIsGrammatical(line: Bytes, payload: Bytes) returns (header: nat, headed: bool)
    requires ParseControl(line).Success? && |payload| == ParseControl(line).value.size
    requires Finish(ParseControl(line).value, payload).Success?
    ensures var m := Finish(ParseControl(line).value, payload).value;
      && IsSubject(m.subject) && (m.reply.Some? ==> IsSubject(m.reply.value)) && m.sid > 0
      && |Split(line, 32)| > 2 && Spells(Split(line, 32), payload, m, header, headed)
  {
    var c := ParseControl(line).value;
    ValidSubjectExactly(c.parts[1]);
    if c.replies {
      ValidSubjectExactly(c.parts[3]);
    }
    headed := StartsWith(line, HMSG + [SPACE]);
    header := c.dropped;
    FirstToken(line, if headed then HMSG else MSG);
  }

  lemma FirstToken(line: Bytes, word: Bytes)
    requires StartsWith(line, word + [SPACE]) && SPACE !in word
    ensures Split(line, SPACE)[0] == word
  {
    SplitToken(word, line[|word| + 1..], SPACE);
    assert line == word + [SPACE] + line[|word| + 1..];
  }
}
