/** The Jupyter wire protocol as the socket-level server (`ipython_mcp_server.py`) speaks
    it: UTF-8 bytes, the HMAC signature in hexadecimal, the seven frames of an execute
    request, and the loop that drains the IOPub socket after sending one. */
module WireProtocol {
  import opened Outcomes
  import opened PyText
  import opened IopubOutput
  import opened ToolReports

  newtype byte = x: int | 0 <= x < 256
  type Bytes = seq<byte>

  // ---------------------------------------------------------------- UTF-8

  /** `str.encode('utf-8')` of one character (a Unicode scalar value). */
  function EncodeChar(c: char): (r: Bytes)
    ensures 1 <= |r| <= 4
    ensures |r| == 1 <==> (c as int) < 0x80
  {
    var n := c as int;
    if n < 0x80 then [n as byte]
    else if n < 0x800 then [(0xC0 + n / 64) as byte, (0x80 + n % 64) as byte]
    else if n < 0x10000 then [(0xE0 + n / 4096) as byte, (0x80 + n / 64 % 64) as byte, (0x80 + n % 64) as byte]
    else [(0xF0 + n / 262144) as byte, (0x80 + n / 4096 % 64) as byte, (0x80 + n / 64 % 64) as byte, (0x80 + n % 64) as byte]
  }

  predicate IsContinuation(b: byte) {
    0x80 <= b < 0xC0
  }

  /** The code point that the bytes of one encoded character stand for. */
  function DecodeChar(b: Bytes): Option<int> {
    if |b| == 1 && b[0] < 0x80 then Some(b[0] as int)
    else if |b| == 2 && 0xC0 <= b[0] < 0xE0 && IsContinuation(b[1]) then
      Some((b[0] as int - 0xC0) * 64 + (b[1] as int - 0x80))
    else if |b| == 3 && 0xE0 <= b[0] < 0xF0 && IsContinuation(b[1]) && IsContinuation(b[2]) then
      Some(((b[0] as int - 0xE0) * 64 + (b[1] as int - 0x80)) * 64 + (b[2] as int - 0x80))
    else if |b| == 4 && 0xF0 <= b[0] < 0xF8 && IsContinuation(b[1]) && IsContinuation(b[2]) && IsContinuation(b[3]) then
      Some((((b[0] as int - 0xF0) * 64 + (b[1] as int - 0x80)) * 64 + (b[2] as int - 0x80)) * 64 + (b[3] as int - 0x80))
    else None
  }

  /** Every character's encoding is well formed and decodes back to the character. */
  lemma EncodeCharRoundTrip(c: char)
    ensures DecodeChar(EncodeChar(c)) == Some(c as int)
  {
    var n := c as int;
    if n >= 0x10000 {
      FourByteRoundTrip(n);
    } else if n >= 0x800 {
      assert n == (n / 4096 * 64 + n / 64 % 64) * 64 + n % 64;
    }
  }

  lemma FourByteRoundTrip(n: int)
    requires 0x10000 <= n < 0x110000
    ensures n == ((n / 262144 * 64 + n / 4096 % 64) * 64 + n / 64 % 64) * 64 + n % 64
  {
    assert n / 4096 == n / 262144 * 64 + n / 4096 % 64;
    assert n / 64 == n / 4096 * 64 + n / 64 % 64;
  }

  /** `str.encode('utf-8')`. */
  function Utf8(s: string): (r: Bytes)
    ensures |r| >= |s|
    ensures (forall i :: 0 <= i < |s| ==> (s[i] as int) < 0x80) ==>
              |r| == |s| && forall i :: 0 <= i < |s| ==> r[i] as int == s[i] as int
  {
    if s == [] then [] else EncodeChar(s[0]) + Utf8(s[1..])
  }

  /** Encoding distributes over concatenation. */
  lemma {:induction false} Utf8Append(a: string, b: string)
    ensures Utf8(a + b) == Utf8(a) + Utf8(b)
  {
    if a == [] {
      assert a + b == b;
    } else {
      assert (a + b)[1..] == a[1..] + b;
      Utf8Append(a[1..], b);
    }
  }

  /** Bytes read back one character each, as an ASCII text is. */
  function AsciiText(b: Bytes): (r: string)
    ensures |r| == |b|
  {
    seq(|b|, i requires 0 <= i < |b| => (b[i] as int) as char)
  }

  // ---------------------------------------------------------------- the signature

  function HexDigit(k: nat): (c: char)
    requires k < 16
  {
    if k < 10 then ('0' as int + k) as char else ('a' as int + k - 10) as char
  }

  predicate IsHexDigit(c: char) {
    '0' <= c <= '9' || 'a' <= c <= 'f'
  }

  function HexValue(c: char): (k: nat)
    ensures k < 16
  {
    if '0' <= c <= '9' then c as int - '0' as int
    else if 'a' <= c <= 'f' then c as int - 'a' as int + 10
    else 0
  }

  /** `hexdigest()`: two lower-case hexadecimal digits per byte, high half first. */
  function HexDigest(d: Bytes): (r: string)
    ensures |r| == 2 * |d|
    ensures forall i :: 0 <= i < |r| ==> IsHexDigit(r[i])
  {
    if d == [] then [] else [HexDigit(d[0] as int / 16), HexDigit(d[0] as int % 16)] + HexDigest(d[1..])
  }

  /** Hexadecimal digits read back, two per byte. */
  function UnHex(s: string): (r: Bytes)
    requires |s| % 2 == 0
    ensures |r| == |s| / 2
  {
    if s == [] then [] else [(HexValue(s[0]) * 16 + HexValue(s[1])) as byte] + UnHex(s[2..])
  }

  lemma {:induction false} HexRoundTrip(d: Bytes)
    ensures UnHex(HexDigest(d)) == d
  {
    if d != [] {
      var h := HexDigest(d);
      assert h[2..] == HexDigest(d[1..]);
      HexRoundTrip(d[1..]);
    }
  }

  /** An HMAC-SHA256 digest: 32 bytes. */
  type Digest = d: Bytes | |d| == 32 witness seq(32, i => 0 as byte)

  /** HMAC-SHA256 of a message under a key; the hash itself is not part of this model. */
  type Mac = (Bytes, Bytes) -> Digest

  /** The bytes fed to the HMAC, one part after another. */
  function Concat(parts: seq<Bytes>): Bytes {
    if parts == [] then [] else Concat(parts[..|parts| - 1]) + parts[|parts| - 1]
  }

  /** What `sign_message(parts, key)` returns. */
  function Signature(parts: seq<Bytes>, key: string, mac: Mac): Bytes {
    Utf8(HexDigest(mac(Utf8(key), Concat(parts))))
  }

  /** The signature is 64 ASCII hexadecimal digits, from which the receiver reads back
      the digest of exactly the concatenated parts. */
  lemma SignatureIsHexOfDigest(parts: seq<Bytes>, key: string, mac: Mac)
    ensures var sig := Signature(parts, key, mac);
            |sig| == 64 && (forall i :: 0 <= i < 64 ==> IsHexDigit(AsciiText(sig)[i])) &&
            UnHex(AsciiText(sig)) == mac(Utf8(key), Concat(parts))
  {
    var digest := mac(Utf8(key), Concat(parts));
    var hex := HexDigest(digest);
    var sig := Utf8(hex);
    assert forall i :: 0 <= i < |hex| ==> (hex[i] as int) < 0x80;
    assert AsciiText(sig) == hex;
    HexRoundTrip(digest);
  }

  /** `sign_message`: the HMAC object is fed each part in order. */
  method SignMessage(parts: seq<Bytes>, key: string, mac: Mac) returns (signature: Bytes)
    ensures signature == Signature(parts, key, mac)
  {
    var fed: Bytes := [];
    for i := 0 to |parts|
      invariant fed == Concat(parts[..i])
    {
      assert parts[..i + 1][..i] == parts[..i];
      fed := fed + parts[i];
    }
    assert parts[..|parts|] == parts;
    signature := Utf8(HexDigest(mac(Utf8(key), fed)));
  }

  // ---------------------------------------------------------------- the request

  /** The JSON values the server serialises. */
  datatype Json = JString(s: string) | JBool(b: bool) | JObject(members: seq<(string, Json)>)

  function Keys(j: Json): seq<string> {
    if j.JObject? then seq(|j.members|, i requires 0 <= i < |j.members| => j.members[i].0) else []
  }

  /** The value under `key` in an object, the first one when the key repeats. */
  function Lookup(j: Json, key: string): Option<Json>
    decreases if j.JObject? then |j.members| else 0
  {
    if !j.JObject? || j.members == [] then None
    else if j.members[0].0 == key then Some(j.members[0].1)
    else Lookup(JObject(j.members[1..]), key)
  }

  /** The header of an execute request. `msgId` and `session` are fresh UUIDs and `date`
      the local time in ISO format, all given by the caller. */
  function RequestHeader(msgId: string, session: string, date: string): (r: Json)
    ensures Keys(r) == ["msg_id", "username", "session", "date", "msg_type", "version"]
  {
    JObject([("msg_id", JString(msgId)), ("username", JString("ipython-mcp")), ("session", JString(session)),
             ("date", JString(date)), ("msg_type", JString("execute_request")), ("version", JString("5.3"))])
  }

  /** The value under a key is the one at its first position. */
  lemma {:induction false} LookupFirst(members: seq<(string, Json)>, i: nat, key: string)
    requires i < |members| && members[i].0 == key
    requires forall k :: 0 <= k < i ==> members[k].0 != key
    ensures Lookup(JObject(members), key) == Some(members[i].1)
  {
    if i > 0 {
      LookupFirst(members[1..], i - 1, key);
    }
  }

  /** The header names the request, the protocol version and the message kind, so the
      kernel can tie its broadcasts back to the request. */
  lemma RequestHeaderFields(msgId: string, session: string, date: string)
    ensures var h := RequestHeader(msgId, session, date);
            Lookup(h, "msg_id") == Some(JString(msgId)) &&
            Lookup(h, "username") == Some(JString("ipython-mcp")) &&
            Lookup(h, "session") == Some(JString(session)) &&
            Lookup(h, "msg_type") == Some(JString("execute_request")) &&
            Lookup(h, "version") == Some(JString("5.3"))
  {
    var m := RequestHeader(msgId, session, date).members;
    LookupFirst(m, 0, "msg_id");
    LookupFirst(m, 1, "username");
    LookupFirst(m, 2, "session");
    LookupFirst(m, 4, "msg_type");
    LookupFirst(m, 5, "version");
  }

  /** The content of an execute request for `code`. */
  function RequestContent(code: string): (r: Json)
    ensures Keys(r) == ["code", "silent", "store_history", "user_expressions", "allow_stdin", "stop_on_error"]
  {
    JObject([("code", JString(code)), ("silent", JBool(false)), ("store_history", JBool(true)),
             ("user_expressions", JObject([])), ("allow_stdin", JBool(false)), ("stop_on_error", JBool(true))])
  }

  /** The request runs `code` visibly, records it in the history, takes no input and
      stops at the first error. */
  lemma RequestContentFields(code: string)
    ensures var c := RequestContent(code);
            Lookup(c, "code") == Some(JString(code)) &&
            Lookup(c, "silent") == Some(JBool(false)) &&
            Lookup(c, "store_history") == Some(JBool(true)) &&
            Lookup(c, "user_expressions") == Some(JObject([])) &&
            Lookup(c, "allow_stdin") == Some(JBool(false)) &&
            Lookup(c, "stop_on_error") == Some(JBool(true))
  {
    var m := RequestContent(code).members;
    LookupFirst(m, 0, "code");
    LookupFirst(m, 1, "silent");
    LookupFirst(m, 2, "store_history");
    LookupFirst(m, 3, "user_expressions");
    LookupFirst(m, 4, "allow_stdin");
    LookupFirst(m, 5, "stop_on_error");
  }

  /** `json.dumps`, given by the caller. */
  type Dumps = Json -> string

  /** `b'<IDS|MSG>'` (the ASCII codes of its characters), which separates the routing identities from the signed message. */
  const Delimiter: Bytes := [0x3C, 0x49, 0x44, 0x53, 0x7C, 0x4D, 0x53, 0x47, 0x3E]
  /** `b'{}'` in ASCII, the empty parent header and metadata. */
  const EmptyDict: Bytes := [0x7B, 0x7D]

  /** The four signed parts: header, parent header, metadata, content. */
  function RequestParts(code: string, msgId: string, session: string, date: string, dumps: Dumps): (r: seq<Bytes>)
    ensures |r| == 4
    ensures r[0] == Utf8(dumps(RequestHeader(msgId, session, date))) && r[1] == EmptyDict
    ensures r[2] == EmptyDict && r[3] == Utf8(dumps(RequestContent(code)))
  {
    [Utf8(dumps(RequestHeader(msgId, session, date))), EmptyDict, EmptyDict, Utf8(dumps(RequestContent(code)))]
  }

  /** The frames sent on the shell socket: an empty identity, the delimiter, the signature
      of the last four frames under the connection key, then those four parts. */
  function RequestFrames(parts: seq<Bytes>, key: string, mac: Mac): (r: seq<Bytes>)
    requires |parts| == 4
    ensures |r| == 7 && r[0] == [] && r[1] == Delimiter && r[3..] == parts
    ensures r[2] == Signature(r[3..], key, mac)
  {
    var r := [[], Delimiter, Signature(parts, key, mac)] + parts;
    assert r[3..] == parts;
    r
  }

  // ---------------------------------------------------------------- draining IOPub

  /** One `recv_multipart(zmq.NOBLOCK)` call: a multipart message or `zmq.Again`. When
      the supplied events run out, every further call is `zmq.Again`. */
  datatype WireEvent = Frames(parts: seq<Bytes>) | Again

  /** `json.loads` of frames 3 (header) and 6 (content) and the reading of the content by
      the header's `msg_type`; an error is what `json.loads` raised. */
  type Decoder = (Bytes, Bytes) -> Result<Content>

  /** The outputs collected so far, kept apart by kind. */
  datatype Groups = Groups(streams: seq<string>, results: seq<string>, errors: seq<string>)

  const NoGroups: Groups := Groups([], [], [])

  /** The collection ended with these outputs, or `json.loads` raised with this message. */
  datatype DrainResult = Drained(groups: Groups) | Aborted(message: string)

  /** The loop gives up after this many empty polls in a row. */
  const MaxEmptyPolls: nat := 100

  /** No collected text is empty, and streams are stripped. */
  predicate Nonblank(g: Groups) {
    (forall i :: 0 <= i < |g.streams| ==> g.streams[i] != "" && !IsSpace(g.streams[i][0])) &&
    (forall i :: 0 <= i < |g.results| ==> g.results[i] != "")
  }

  /** What one decoded message adds to the groups. */
  function AddTo(g: Groups, c: Content): (r: Groups)
    ensures Nonblank(g) ==> Nonblank(r)
    ensures c.Stream? ==> r == g.(streams := g.streams + StreamFragment(c.text))
    ensures c.ExecuteResult? ==> r == g.(results := g.results + ResultFragment(c.plainText))
    ensures c.Error? ==> r == g.(errors := g.errors + [ErrorText(c.ename, c.evalue, c.traceback)])
    ensures (c.Status? || c.Ignored?) ==> r == g
  {
    match c
    case Stream(text) => g.(streams := g.streams + StreamFragment(text))
    case ExecuteResult(plain) => g.(results := g.results + ResultFragment(plain))
    case Error(name, value, traceback) => g.(errors := g.errors + [ErrorText(name, value, traceback)])
    case _ => g
  }

  /** The polling loop of `execute_code` over the events still to come, with `empty`
      empty polls behind it and the groups gathered so far. Every message of seven or more
      frames is read, whichever request it belongs to; shorter ones are skipped. Any
      message, read or skipped, resets the empty-poll count. */
  function Drain(evs: seq<WireEvent>, empty: nat, g: Groups, decode: Decoder): (r: DrainResult)
    ensures Nonblank(g) && r.Drained? ==> Nonblank(r.groups)
    ensures r.Drained? ==> |g.streams| <= |r.groups.streams| && r.groups.streams[..|g.streams|] == g.streams
    decreases |evs|
  {
    if empty >= MaxEmptyPolls || evs == [] then Drained(g)
    else match evs[0]
      case Again => Drain(evs[1..], empty + 1, g, decode)
      case Frames(parts) =>
        if |parts| < 7 then Drain(evs[1..], 0, g, decode)
        else match decode(parts[3], parts[6])
          case Err(e) => Aborted(e)
          case Ok(c) => if IsIdle(c) then Drained(g) else Drain(evs[1..], 0, AddTo(g, c), decode)
  }

  // ---- Reference definition: which messages the loop reads, and how they are grouped ----

  /** The contents of the messages the loop reads before it stops, in arrival order, or
      the error of the first frames `json.loads` rejects. Idle statuses end the reading
      and are not part of it. */
  function ReadContents(evs: seq<WireEvent>, empty: nat, decode: Decoder): Result<seq<Content>>
    decreases |evs|
  {
    if empty >= MaxEmptyPolls || evs == [] then Ok([])
    else match evs[0]
      case Again => ReadContents(evs[1..], empty + 1, decode)
      case Frames(parts) =>
        if |parts| < 7 then ReadContents(evs[1..], 0, decode)
        else match decode(parts[3], parts[6])
          case Err(e) => Err(e)
          case Ok(c) =>
            if IsIdle(c) then Ok([])
            else match ReadContents(evs[1..], 0, decode)
              case Err(e) => Err(e)
              case Ok(cs) => Ok([c] + cs)
  }

  /** The stream texts among `cs`, stripped and without the blank ones, in order. */
  function StreamsOf(cs: seq<Content>): seq<string> {
    if cs == [] then []
    else (if cs[0].Stream? then StreamFragment(cs[0].text) else []) + StreamsOf(cs[1..])
  }

  /** The non-empty `text/plain` results among `cs`, in order. */
  function ResultsOf(cs: seq<Content>): seq<string> {
    if cs == [] then []
    else (if cs[0].ExecuteResult? then ResultFragment(cs[0].plainText) else []) + ResultsOf(cs[1..])
  }

  /** The error texts of the errors among `cs`, in order. */
  function ErrorsOf(cs: seq<Content>): seq<string> {
    if cs == [] then []
    else (if cs[0].Error? then [ErrorText(cs[0].ename, cs[0].evalue, cs[0].traceback)] else []) + ErrorsOf(cs[1..])
  }

  /** `g` followed, group by group, by what the contents `cs` contribute. */
  function Grouped(g: Groups, cs: seq<Content>): Groups {
    Groups(g.streams + StreamsOf(cs), g.results + ResultsOf(cs), g.errors + ErrorsOf(cs))
  }

  /** Adding one content, then grouping the rest, is grouping it with the rest. */
  lemma GroupedCons(g: Groups, c: Content, cs: seq<Content>)
    ensures Grouped(AddTo(g, c), cs) == Grouped(g, [c] + cs)
  {
    var d := [c] + cs;
    assert d[0] == c && d[1..] == cs;
    var x := OutputOf(c);
    if c.Stream? {
      assert StreamsOf(d) == x + StreamsOf(cs) && ResultsOf(d) == ResultsOf(cs) && ErrorsOf(d) == ErrorsOf(cs);
      AppendAssoc(g.streams, x, StreamsOf(cs));
    } else if c.ExecuteResult? {
      assert ResultsOf(d) == x + ResultsOf(cs) && StreamsOf(d) == StreamsOf(cs) && ErrorsOf(d) == ErrorsOf(cs);
      AppendAssoc(g.results, x, ResultsOf(cs));
    } else if c.Error? {
      assert ErrorsOf(d) == x + ErrorsOf(cs) && StreamsOf(d) == StreamsOf(cs) && ResultsOf(d) == ResultsOf(cs);
      AppendAssoc(g.errors, x, ErrorsOf(cs));
    } else {
      assert StreamsOf(d) == StreamsOf(cs) && ResultsOf(d) == ResultsOf(cs) && ErrorsOf(d) == ErrorsOf(cs);
    }
  }

  /** The texts one content adds to its own group. */
  function OutputOf(c: Content): seq<string> {
    match c
    case Stream(text) => StreamFragment(text)
    case ExecuteResult(plain) => ResultFragment(plain)
    case Error(name, value, traceback) => [ErrorText(name, value, traceback)]
    case _ => []
  }

  lemma AppendAssoc(a: seq<string>, b: seq<string>, c: seq<string>)
    ensures (a + b) + c == a + (b + c)
  {
  }

  /** The loop's groups are the read messages split by kind, each kind in arrival order;
      it aborts exactly when reading meets frames `json.loads` rejects. */
  lemma {:induction false} DrainIsGroupedReads(evs: seq<WireEvent>, empty: nat, g: Groups, decode: Decoder)
    ensures Drain(evs, empty, g, decode) ==
            match ReadContents(evs, empty, decode)
            case Err(e) => Aborted(e)
            case Ok(cs) => Drained(Grouped(g, cs))
    decreases |evs|
  {
    if empty >= MaxEmptyPolls || evs == [] {
      assert Grouped(g, []) == g;
    } else {
      match evs[0]
      case Again =>
        DrainIsGroupedReads(evs[1..], empty + 1, g, decode);
      case Frames(parts) =>
        if |parts| < 7 {
          DrainIsGroupedReads(evs[1..], 0, g, decode);
        } else {
          match decode(parts[3], parts[6])
          case Err(e) =>
          case Ok(c) =>
            if IsIdle(c) {
              assert Grouped(g, []) == g;
            } else {
              DrainIsGroupedReads(evs[1..], 0, AddTo(g, c), decode);
              match ReadContents(evs[1..], 0, decode)
              case Err(e) =>
              case Ok(cs) => GroupedCons(g, c, cs);
            }
        }
    }
  }

  /** A full message whose frames are read and whose content is not an idle status. */
  predicate Ready(e: WireEvent, decode: Decoder) {
    e.Frames? && |e.parts| >= 7 && decode(e.parts[3], e.parts[6]).Ok? &&
    !IsIdle(decode(e.parts[3], e.parts[6]).value)
  }

  /** The content a ready message carries. */
  function ReadyContent(e: WireEvent, decode: Decoder): Content
    requires Ready(e, decode)
  {
    decode(e.parts[3], e.parts[6]).value
  }

  /** When every event is ready, the loop reads all of them, in order. */
  lemma {:induction false} ReadContentsOfReadyMessages(evs: seq<WireEvent>, empty: nat, decode: Decoder)
    requires empty < MaxEmptyPolls
    requires forall i :: 0 <= i < |evs| ==> Ready(evs[i], decode)
    ensures var r := ReadContents(evs, empty, decode);
            r.Ok? && |r.value| == |evs| &&
            forall i :: 0 <= i < |evs| ==> Ready(evs[i], decode) && r.value[i] == ReadyContent(evs[i], decode)
    decreases |evs|
  {
    if evs != [] {
      assert forall i :: 0 <= i < |evs[1..]| ==> evs[1..][i] == evs[i + 1];
      ReadContentsOfReadyMessages(evs[1..], 0, decode);
      assert Ready(evs[0], decode);
      var cs := ReadContents(evs[1..], 0, decode).value;
      var c := ReadyContent(evs[0], decode);
      assert ReadContents(evs, empty, decode) == Ok([c] + cs);
      forall i | 0 <= i < |evs|
        ensures ([c] + cs)[i] == ReadyContent(evs[i], decode)
      {
        if i > 0 {
          assert ([c] + cs)[i] == cs[i - 1];
        }
      }
    }
  }

  /** Enough empty polls in a row end the collection: whatever would arrive after them
      is never read. */
  lemma {:induction false} EmptyPollsEndDrain(k: nat, empty: nat, g: Groups, rest: seq<WireEvent>, decode: Decoder)
    requires empty + k >= MaxEmptyPolls
    ensures Drain(seq(k, i => Again) + rest, empty, g, decode) == Drained(g)
  {
    var evs := seq(k, i => Again) + rest;
    if k > 0 && empty < MaxEmptyPolls {
      assert evs[0] == Again;
      assert evs[1..] == seq(k - 1, i => Again) + rest;
      EmptyPollsEndDrain(k - 1, empty + 1, g, rest, decode);
    }
  }

  /** Two events the loop cannot tell apart: both empty polls, both too short to read,
      or both readable with the same header and content frames. */
  predicate SameView(a: WireEvent, b: WireEvent) {
    match a
    case Again => b.Again?
    case Frames(p) =>
      b.Frames? &&
      (|p| < 7 <==> |b.parts| < 7) &&
      (|p| >= 7 ==> p[3] == b.parts[3] && p[6] == b.parts[6])
  }

  /** Only frames 3 and 6 of a message matter: identities, delimiter, signature, parent
      header and metadata of received messages are never looked at, nor checked. */
  lemma {:induction false} DrainReadsOnlyHeaderAndContent(evs: seq<WireEvent>, evs': seq<WireEvent>, empty: nat, g: Groups, decode: Decoder)
    requires |evs| == |evs'|
    requires forall i :: 0 <= i < |evs| ==> SameView(evs[i], evs'[i])
    ensures Drain(evs, empty, g, decode) == Drain(evs', empty, g, decode)
  {
    if empty < MaxEmptyPolls && evs != [] {
      assert SameView(evs[0], evs'[0]);
      assert forall i :: 0 <= i < |evs[1..]| ==> SameView(evs[1..][i], evs'[1..][i]) by {
        forall i | 0 <= i < |evs[1..]|
          ensures SameView(evs[1..][i], evs'[1..][i])
        {
          assert evs[1..][i] == evs[i + 1] && evs'[1..][i] == evs'[i + 1];
        }
      }
      match evs[0]
      case Again =>
        DrainReadsOnlyHeaderAndContent(evs[1..], evs'[1..], empty + 1, g, decode);
      case Frames(p) =>
        if |p| < 7 {
          DrainReadsOnlyHeaderAndContent(evs[1..], evs'[1..], 0, g, decode);
        } else {
          match decode(p[3], p[6])
          case Err(e) =>
          case Ok(c) =>
            if !IsIdle(c) {
              DrainReadsOnlyHeaderAndContent(evs[1..], evs'[1..], 0, AddTo(g, c), decode);
            }
        }
    }
  }

  /** One turn of the loop, as the method below takes it. */
  lemma DrainStep(evs: seq<WireEvent>, i: nat, empty: nat, g: Groups, decode: Decoder)
    requires i < |evs| && empty < MaxEmptyPolls
    ensures evs[i].Again? ==> Drain(evs[i..], empty, g, decode) == Drain(evs[i + 1..], empty + 1, g, decode)
    ensures evs[i].Frames? && |evs[i].parts| < 7 ==> Drain(evs[i..], empty, g, decode) == Drain(evs[i + 1..], 0, g, decode)
    ensures evs[i].Frames? && |evs[i].parts| >= 7 ==>
              var c := decode(evs[i].parts[3], evs[i].parts[6]);
              Drain(evs[i..], empty, g, decode) ==
                if c.Err? then Aborted(c.message)
                else if IsIdle(c.value) then Drained(g)
                else Drain(evs[i + 1..], 0, AddTo(g, c.value), decode)
  {
    assert evs[i..][0] == evs[i] && evs[i..][1..] == evs[i + 1..];
  }

  /** The polling loop itself: `recv_multipart` until an idle status is read or a
      hundred polls in a row found nothing. */
  method Poll(evs: seq<WireEvent>, decode: Decoder) returns (r: DrainResult)
    ensures r == Drain(evs, 0, NoGroups, decode)
  {
    var i := 0;
    var empty := 0;
    var g := NoGroups;
    while empty < MaxEmptyPolls
      invariant i <= |evs|
      invariant Drain(evs, 0, NoGroups, decode) == Drain(evs[i..], empty, g, decode)
      decreases |evs| - i, MaxEmptyPolls - empty
    {
      if i == |evs| {
        empty := empty + 1;
        continue;
      }
      DrainStep(evs, i, empty, g, decode);
      match evs[i] {
        case Again =>
          empty := empty + 1;
        case Frames(parts) =>
          if |parts| >= 7 {
            var c := decode(parts[3], parts[6]);
            if c.Err? {
              return Aborted(c.message);
            }
            if IsIdle(c.value) {
              return Drained(g);
            }
            g := AddTo(g, c.value);
          }
          empty := 0;
      }
      i := i + 1;
    }
    return Drained(g);
  }

  // ---------------------------------------------------------------- the report

  /** Each error after a cross mark and a space. */
  function MarkedErrors(errors: seq<string>): (r: seq<string>)
    ensures |r| == |errors|
    ensures forall i :: 0 <= i < |r| ==> r[i] == CrossMark + " " + errors[i]
  {
    seq(|errors|, i requires 0 <= i < |errors| => CrossMark + " " + errors[i])
  }

  /** The report's parts: all streams, then all results, then each marked error, each
      group in arrival order. */
  function ReportParts(g: Groups): (r: seq<string>)
    ensures |r| == |g.streams| + |g.results| + |g.errors|
    ensures r[..|g.streams|] == g.streams
    ensures r[|g.streams|..|g.streams| + |g.results|] == g.results
    ensures r[|g.streams| + |g.results|..] == MarkedErrors(g.errors)
  {
    g.streams + g.results + MarkedErrors(g.errors)
  }

  /** The report of a drained collection: the parts joined by newlines, the no-output
      report when there are none. With nonblank groups the report is never empty, and
      it starts with the first stream, else the first result, else the first error. */
  function GroupedReport(g: Groups): (r: string)
    ensures g == NoGroups ==> r == NoOutput
    ensures g != NoGroups ==> r == Join(ReportParts(g), "\n")
    ensures Nonblank(g) ==> r != ""
    ensures g != NoGroups ==> var first := ReportParts(g)[0];
              |first| <= |r| && r[..|first|] == first &&
              first == (if g.streams != [] then g.streams[0]
                        else if g.results != [] then g.results[0]
                        else CrossMark + " " + g.errors[0])
  {
    var parts := ReportParts(g);
    if parts == [] then NoOutput
    else
      assert parts[0] == if g.streams != [] then g.streams[0]
                         else if g.results != [] then g.results[0]
                         else CrossMark + " " + g.errors[0];
      Join(parts, "\n")
  }

  /** The three loops that lay the groups out one after another. */
  method FormatReport(g: Groups) returns (report: string)
    ensures report == GroupedReport(g)
  {
    var parts: seq<string> := [];
    for i := 0 to |g.streams|
      invariant parts == g.streams[..i]
    {
      assert g.streams[..i + 1] == g.streams[..i] + [g.streams[i]];
      parts := parts + [g.streams[i]];
    }
    assert g.streams[..|g.streams|] == g.streams && g.results[..0] == [];
    for i := 0 to |g.results|
      invariant parts == g.streams + g.results[..i]
    {
      assert g.results[..i + 1] == g.results[..i] + [g.results[i]];
      parts := parts + [g.results[i]];
    }
    assert g.results[..|g.results|] == g.results && MarkedErrors(g.errors[..0]) == [];
    for i := 0 to |g.errors|
      invariant parts == g.streams + g.results + MarkedErrors(g.errors[..i])
    {
      assert MarkedErrors(g.errors[..i + 1]) == MarkedErrors(g.errors[..i]) + [CrossMark + " " + g.errors[i]];
      parts := parts + [CrossMark + " " + g.errors[i]];
    }
    assert g.streams[..|g.streams|] == g.streams && g.errors[..|g.errors|] == g.errors;
    if parts == [] {
      report := NoOutput;
    } else {
      report := Join(parts, "\n");
    }
  }
}
