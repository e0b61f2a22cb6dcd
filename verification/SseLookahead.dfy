/** The streaming half of `validateSuccess`: the first 64 KiB of an upstream body are read
    line by line through a length-limited reader and a buffered reader until the first
    event block is complete, and the body is then replaced by the concatenation of the
    bytes already taken, what the buffered reader still holds or can still fetch, and the
    rest of the upstream body.  Event framing follows section 9.2.5 of the WHATWG HTML
    standard. */
module SseLookahead {
  import opened Keys
  import Catalog

  newtype Byte = b: int | 0 <= b < 256

  const WINDOW: nat := 64 * 1024
  const BUFFER_SIZE: nat := 4096
  const NEWLINE: Byte := 10

  // ---------------------------------------------------------------- text of a line

  /** Width in bytes of the white-space character that starts `s`, or 0.  The multi-byte
      cases are the UTF-8 encodings of the Unicode space characters. */
  function SpaceWidth(s: seq<Byte>): (w: nat)
    ensures w <= |s|
  {
    if |s| >= 1 && (s[0] == 32 || 9 <= s[0] <= 13) then 1
    else if |s| >= 2 && s[0] == 0xC2 && (s[1] == 0x85 || s[1] == 0xA0) then 2
    else if |s| >= 3 && s[0] == 0xE1 && s[1] == 0x9A && s[2] == 0x80 then 3
    else if |s| >= 3 && s[0] == 0xE2 && s[1] == 0x80
         && (0x80 <= s[2] <= 0x8A || s[2] == 0xA8 || s[2] == 0xA9 || s[2] == 0xAF) then 3
    else if |s| >= 3 && s[0] == 0xE2 && s[1] == 0x81 && s[2] == 0x9F then 3
    else if |s| >= 3 && s[0] == 0xE3 && s[1] == 0x80 && s[2] == 0x80 then 3
    else 0
  }

  function TrimLeft(s: seq<Byte>): seq<Byte> {
    var w := SpaceWidth(s);
    if w == 0 then s else TrimLeft(s[w..])
  }

  /** Width of the white space character at the end, or 0. */
  function SpaceAtEnd(s: seq<Byte>): (w: nat)
    ensures w <= |s|
  {
    if |s| >= 1 && SpaceWidth(s[|s| - 1..]) == 1 then 1
    else if |s| >= 2 && SpaceWidth(s[|s| - 2..]) == 2 then 2
    else if |s| >= 3 && SpaceWidth(s[|s| - 3..]) == 3 then 3
    else 0
  }

  function TrimRight(s: seq<Byte>): seq<Byte>
    decreases |s|
  {
    var w := SpaceAtEnd(s);
    if w == 0 then s else TrimRight(s[..|s| - w])
  }

  function TrimSpace(s: seq<Byte>): seq<Byte> { TrimRight(TrimLeft(s)) }

  /** The bytes of "data:" and "event:". */
  const DATA_FIELD: seq<Byte> := [100, 97, 116, 97, 58]
  const EVENT_FIELD: seq<Byte> := [101, 118, 101, 110, 116, 58]

  predicate IsEventLine(line: seq<Byte>) {
    DATA_FIELD <= TrimSpace(line) || EVENT_FIELD <= TrimSpace(line)
  }

  // ---------------------------------------------------------------- lines of a window

  function IndexOfNewline(s: seq<Byte>): (i: nat)
    ensures i <= |s|
    ensures forall k :: 0 <= k < i ==> s[k] != NEWLINE
    ensures i < |s| ==> s[i] == NEWLINE
  {
    if s == [] || s[0] == NEWLINE then 0 else 1 + IndexOfNewline(s[1..])
  }

  /** Everything up to and including the first newline, or everything. */
  function FirstLine(s: seq<Byte>): (line: seq<Byte>)
    ensures line <= s
    ensures s != [] ==> line != []
  {
    var i := IndexOfNewline(s);
    if i < |s| then s[..i + 1] else s
  }

  function Lines(w: seq<Byte>): seq<seq<Byte>> {
    if w == [] then [] else [FirstLine(w)] + Lines(w[|FirstLine(w)|..])
  }

  function Concat(lines: seq<seq<Byte>>): seq<Byte> {
    if lines == [] then [] else lines[0] + Concat(lines[1..])
  }

  predicate NewlineOnlyAtEnd(line: seq<Byte>) { line != [] && NEWLINE !in line[..|line| - 1] }

  predicate EndsWithNewline(line: seq<Byte>) { line != [] && line[|line| - 1] == NEWLINE }

  predicate LinesWellFormed(lines: seq<seq<Byte>>) {
    (forall k :: 0 <= k < |lines| ==> NewlineOnlyAtEnd(lines[k]))
    && forall k :: 0 <= k < |lines| - 1 ==> EndsWithNewline(lines[k])
  }

  lemma ConsLine(line: seq<Byte>, tail: seq<seq<Byte>>)
    requires NewlineOnlyAtEnd(line) && (tail == [] || EndsWithNewline(line)) && LinesWellFormed(tail)
    ensures LinesWellFormed([line] + tail) && Concat([line] + tail) == line + Concat(tail)
  {
    assert forall k :: 0 <= k < |tail| ==> ([line] + tail)[k + 1] == tail[k];
    assert ([line] + tail)[1..] == tail;
  }

  /** `Lines` cuts a window exactly at its newlines: nothing is lost, no line has a newline
      inside, and every line but the last ends with one. */
  lemma {:induction false} LinesPartitionWindow(w: seq<Byte>)
    ensures Concat(Lines(w)) == w && LinesWellFormed(Lines(w))
  {
    if w != [] {
      var line := FirstLine(w);
      var tail := w[|line|..];
      LinesPartitionWindow(tail);
      ConsLine(line, Lines(tail));
      assert w == line + tail;
    }
  }

  predicate SomeEvent(lines: seq<seq<Byte>>) { exists k :: 0 <= k < |lines| && IsEventLine(lines[k]) }

  predicate Accepts(window: seq<Byte>) { SomeEvent(Lines(window)) }

  lemma EventInFront(line: seq<Byte>, tail: seq<seq<Byte>>)
    ensures SomeEvent([line] + tail) <==> IsEventLine(line) || SomeEvent(tail)
  {
    var all := [line] + tail;
    assert all[0] == line;
    if k :| 0 <= k < |tail| && IsEventLine(tail[k]) {
      assert all[k + 1] == tail[k];
    }
    if k :| 0 <= k < |all| && IsEventLine(all[k]) {
      assert k > 0 ==> all[k] == tail[k - 1];
    }
  }

  lemma AcceptsFirstOrRest(w: seq<Byte>)
    ensures w == [] ==> !Accepts(w)
    ensures w != [] ==> (Accepts(w) <==> IsEventLine(FirstLine(w)) || Accepts(w[|FirstLine(w)|..]))
  {
    if w != [] {
      EventInFront(FirstLine(w), Lines(w[|FirstLine(w)|..]));
    }
  }

  // ---------------------------------------------------------------- the three readers

  function Prefix(s: seq<Byte>, n: nat): seq<Byte> { s[..Min(n, |s|)] }

  /** An error-free upstream body.  Each read delivers an arbitrary non-empty chunk; the end
      of the stream may be reported with the last chunk or on the read after it. */
  class Upstream {
    var rest: seq<Byte>

    constructor (bytes: seq<Byte>)
      ensures rest == bytes
    {
      rest := bytes;
    }

    method Read(max: nat) returns (data: seq<Byte>, eof: bool)
      requires 0 < max
      modifies this
      ensures old(rest) == data + rest && |data| <= max
      ensures eof ==> rest == []
      ensures data == [] ==> eof
    {
      if rest == [] {
        return [], true;
      }
      var n: nat :| 1 <= n <= max && n <= |rest|;
      var together: bool := *;
      data := rest[..n];
      rest := rest[n..];
      eof := rest == [] && together;
    }
  }

  /** `io.LimitedReader`. */
  class Limited {
    const source: Upstream
    var left: nat

    constructor (source: Upstream, n: nat)
      ensures this.source == source && left == n
    {
      this.source := source;
      left := n;
    }

    method Read(max: nat) returns (data: seq<Byte>, eof: bool)
      requires 0 < max
      modifies this, source
      ensures old(source.rest) == data + source.rest && |data| <= max
      ensures left == old(left) - |data|
      ensures eof ==> left == 0 || source.rest == []
      ensures data == [] ==> eof
    {
      if left == 0 {
        return [], true;
      }
      data, eof := source.Read(if max > left then left else max);
      left := left - |data|;
    }
  }

  /** `bufio.Reader` over a `Limited`: `held` are the bytes fetched and not yet handed out,
      `ended` is the end-of-stream report it has not passed on yet. */
  class Buffered {
    const source: Limited
    var held: seq<Byte>
    var ended: bool

    constructor (source: Limited)
      ensures this.source == source && held == [] && !ended
    {
      this.source := source;
      held := [];
      ended := false;
    }

    ghost predicate Valid()
      reads this, source, source.source
    {
      |held| <= BUFFER_SIZE && (ended ==> source.left == 0 || source.source.rest == [])
    }

    /** What this reader will deliver before reporting the end. */
    ghost function Window(): seq<Byte>
      reads this, source, source.source
    {
      held + Prefix(source.source.rest, source.left)
    }

    /** The same, followed by the part of the body beyond the limit. */
    ghost function All(): seq<Byte>
      reads this, source, source.source
    {
      held + source.source.rest
    }

    /** One read into the free part of the buffer. */
    method Fill()
      requires Valid() && !ended && |held| < BUFFER_SIZE
      modifies this, source, source.source
      ensures Valid()
      ensures Window() == old(Window()) && All() == old(All())
      ensures |source.source.rest| < old(|source.source.rest|)
           || (ended && source.source.rest == old(source.source.rest))
    {
      ghost var tail := Prefix(source.source.rest, source.left);
      var data, eof := source.Read(BUFFER_SIZE - |held|);
      assert tail == data + Prefix(source.source.rest, source.left);
      Regroup(held, data, Prefix(source.source.rest, source.left));
      Regroup(held, data, source.source.rest);
      held := held + data;
      ended := eof;
    }

    /** Hands out the first `n` held bytes, appended to `line`. */
    method Take(line: seq<Byte>, n: nat) returns (longer: seq<Byte>)
      requires Valid() && n <= |held|
      modifies this
      ensures Valid() && ended == old(ended)
      ensures longer == line + old(held[..n]) && held == old(held[n..])
      ensures longer + Window() == line + old(Window())
      ensures longer + All() == line + old(All())
    {
      Reslice(line, held, Prefix(source.source.rest, source.left), n);
      Reslice(line, held, source.source.rest, n);
      longer := line + held[..n];
      held := held[n..];
    }

    /** `bufio.Reader.ReadString` for the newline delimiter. */
    method ReadString() returns (line: seq<Byte>, eof: bool)
      requires Valid()
      modifies this, source, source.source
      ensures Valid()
      ensures line == FirstLine(old(Window()))
      ensures eof <==> NEWLINE !in old(Window())
      ensures line + Window() == old(Window())
      ensures line + All() == old(All())
    {
      ghost var window, all := Window(), All();
      line := [];
      while true
        invariant Valid()
        invariant NEWLINE !in line
        invariant line + Window() == window
        invariant line + All() == all
        decreases |source.source.rest|, if ended then 0 else 1, |held|
      {
        var i := IndexOfNewline(held);
        if i < |held| {
          NewlineFound(line, held, Prefix(source.source.rest, source.left), i);
          line := Take(line, i + 1);
          return line, false;
        }
        NewlineNotFound(line, held);
        if ended {
          assert Window() == held;
          line := Take(line, |held|);
          ended := false;
          return line, true;
        }
        if |held| >= BUFFER_SIZE {
          line := Take(line, |held|);
        } else {
          Fill();
        }
      }
    }

    /** `bufio.Reader.Read`. */
    method Read(max: nat) returns (data: seq<Byte>, eof: bool)
      requires Valid() && 0 < max
      modifies this, source, source.source
      ensures Valid() && |data| <= max
      ensures data + All() == old(All())
      ensures eof ==> held == []
      ensures data == [] ==> eof
    {
      if held == [] {
        if ended {
          ended := false;
          return [], true;
        }
        if max >= BUFFER_SIZE {
          data, eof := source.Read(max);
          return;
        }
        held, ended := source.Read(BUFFER_SIZE);
        if held == [] {
          ended := false;
          return [], true;
        }
      }
      var n := Min(max, |held|);
      data := held[..n];
      held := held[n..];
      eof := false;
    }
  }

  lemma Regroup(a: seq<Byte>, b: seq<Byte>, c: seq<Byte>)
    ensures a + (b + c) == (a + b) + c
  {
  }

  lemma Reslice(a: seq<Byte>, b: seq<Byte>, c: seq<Byte>, n: nat)
    requires n <= |b|
    ensures a + (b + c) == (a + b[..n]) + (b[n..] + c)
  {
    assert b == b[..n] + b[n..];
  }

  lemma Advance(taken: seq<Byte>, ahead: seq<Byte>, line: seq<Byte>)
    requires line <= ahead
    ensures taken + ahead == (taken + line) + ahead[|line|..]
  {
    assert ahead == line + ahead[|line|..];
  }

  /** The first newline of a text is where it is said to be. */
  lemma FirstNewline(s: seq<Byte>, i: nat)
    requires i < |s| && s[i] == NEWLINE && forall k :: 0 <= k < i ==> s[k] != NEWLINE
    ensures IndexOfNewline(s) == i && FirstLine(s) == s[..i + 1]
  {
  }

  lemma FirstLineIs(start: seq<Byte>, tail: seq<Byte>)
    requires NEWLINE !in start
    ensures FirstLine(start + ([NEWLINE] + tail)) == start + [NEWLINE]
    ensures NEWLINE in start + ([NEWLINE] + tail)
  {
    var all := start + ([NEWLINE] + tail);
    assert all[|start|] == NEWLINE && all[..|start|] == start;
    assert forall k :: 0 <= k < |start| ==> all[k] == start[k];
    FirstNewline(all, |start|);
  }

  lemma NewlineFree(a: seq<Byte>, b: seq<Byte>)
    requires NEWLINE !in a && forall k :: 0 <= k < |b| ==> b[k] != NEWLINE
    ensures NEWLINE !in a + b
  {
  }

  lemma CutAround(a: seq<Byte>, b: seq<Byte>, c: seq<Byte>, i: nat)
    requires i < |b|
    ensures a + (b + c) == (a + b[..i]) + ([b[i]] + (b[i + 1..] + c))
    ensures (a + b[..i]) + [b[i]] == a + b[..i + 1]
  {
    assert b == b[..i] + ([b[i]] + b[i + 1..]);
    assert b[..i] + [b[i]] == b[..i + 1];
  }

  lemma NewlineFound(line: seq<Byte>, held: seq<Byte>, tail: seq<Byte>, i: nat)
    requires NEWLINE !in line && i == IndexOfNewline(held) < |held|
    ensures FirstLine(line + (held + tail)) == line + held[..i + 1]
    ensures NEWLINE in line + (held + tail)
  {
    NewlineFree(line, held[..i]);
    CutAround(line, held, tail, i);
    FirstLineIs(line + held[..i], held[i + 1..] + tail);
  }

  lemma NewlineNotFound(line: seq<Byte>, held: seq<Byte>)
    requires NEWLINE !in line && IndexOfNewline(held) == |held|
    ensures NEWLINE !in line + held
    ensures FirstLine(line + held) == line + held
  {
  }

  // ---------------------------------------------------------------- the replaced body

  datatype Stage = InPrefix | InBuffer | InBody | Done

  /** The `io.MultiReader` that replaces the response body. */
  class Spliced {
    var prefix: seq<Byte>
    const buffered: Buffered
    const body: Upstream
    var stage: Stage

    constructor (prefix: seq<Byte>, buffered: Buffered)
      ensures this.prefix == prefix && this.buffered == buffered
      ensures body == buffered.source.source && stage == InPrefix
    {
      this.prefix := prefix;
      this.buffered := buffered;
      this.body := buffered.source.source;
      stage := InPrefix;
    }

    ghost predicate Valid()
      reads this, buffered, buffered.source, body, buffered.source.source
    {
      body == buffered.source.source
      && buffered.Valid()
      && (stage != InPrefix ==> prefix == [])
      && (stage.InBody? || stage.Done? ==> buffered.held == [])
      && (stage.Done? ==> body.rest == [])
    }

    ghost function Content(): seq<Byte>
      reads this, buffered, buffered.source, buffered.source.source
    {
      prefix + buffered.All()
    }

    method Read(max: nat) returns (data: seq<Byte>, eof: bool)
      requires Valid() && 0 < max
      modifies this, buffered, buffered.source, body
      ensures Valid() && |data| <= max
      ensures data + Content() == old(Content())
      ensures eof ==> Content() == []
      ensures data == [] ==> eof
    {
      if stage.InPrefix? {
        if prefix != [] {
          var n := Min(max, |prefix|);
          Reslice([], prefix, buffered.All(), n);
          data, eof := prefix[..n], false;
          prefix := prefix[n..];
          return;
        }
        stage := InBuffer;
      }
      data, eof := ReadOn(max);
    }

    /** The two readers after the prefix. */
    method ReadOn(max: nat) returns (data: seq<Byte>, eof: bool)
      requires Valid() && !stage.InPrefix? && 0 < max
      modifies this, buffered, buffered.source, body
      ensures Valid() && |data| <= max && !stage.InPrefix?
      ensures data + buffered.All() == old(buffered.All())
      ensures eof ==> buffered.All() == []
      ensures data == [] ==> eof
    {
      if stage.InBuffer? {
        data, eof := buffered.Read(max);
        if eof {
          stage := InBody;
        }
        if data != [] {
          return data, false;
        }
      }
      if stage.InBody? {
        data, eof := body.Read(max);
        if eof {
          stage := Done;
        }
        return;
      }
      return [], true;
    }

    /** A client that drains the replaced body, with read sizes of its own choosing. */
    method ReadAll() returns (bytes: seq<Byte>)
      requires Valid()
      modifies this, buffered, buffered.source, body
      ensures bytes == old(Content())
    {
      bytes := [];
      var eof := false;
      while !eof
        invariant Valid()
        invariant bytes + Content() == old(Content())
        invariant eof ==> Content() == []
        decreases |Content()|, if eof then 0 else 1
      {
        var max: nat :| 0 < max;
        var data;
        data, eof := Read(max);
        bytes := bytes + data;
      }
    }
  }

  // ---------------------------------------------------------------- the lookahead

  lemma Held(reader: Buffered)
    requires reader.held == []
    ensures reader.All() == reader.source.source.rest
    ensures reader.Window() == Prefix(reader.source.source.rest, reader.source.left)
  {
  }

  /** The lookahead loop: lines are taken until an event block is complete. */
  method Scan(reader: Buffered) returns (prefix: seq<Byte>, valid: bool)
    requires reader.Valid() && |reader.Window()| <= WINDOW
    modifies reader, reader.source, reader.source.source
    ensures reader.Valid() && prefix + reader.All() == old(reader.All())
    ensures valid <==> Accepts(old(reader.Window()))
  {
    ghost var window, all := reader.Window(), reader.All();
    prefix, valid := [], false;
    while |prefix| < WINDOW
      invariant reader.Valid()
      invariant prefix + reader.All() == all
      invariant prefix + reader.Window() == window
      invariant Accepts(window) <==> valid || Accepts(reader.Window())
      decreases |reader.Window()|, 1
    {
      ghost var ahead := reader.Window();
      var line, eof := reader.ReadString();
      AcceptsFirstOrRest(ahead);
      Advance(prefix, ahead, line);
      Regroup(prefix, line, reader.All());
      prefix := prefix + line;
      var trimmed := TrimSpace(line);
      if DATA_FIELD <= trimmed || EVENT_FIELD <= trimmed {
        valid := true;
      }
      if valid && trimmed == [] {
        break;
      }
      if eof {
        break;
      }
    }
  }

  /** The stream is accepted exactly when some line of its first 64 KiB is an event line,
      and then the replaced body holds the original bytes, however the reads were chunked. */
  method ValidateStream(body: Upstream) returns (ok: bool, spliced: Spliced?)
    modifies body
    ensures ok <==> Accepts(Prefix(old(body.rest), WINDOW))
    ensures ok <==> spliced != null
    ensures ok ==> spliced.body == body && spliced.Valid() && spliced.Content() == old(body.rest)
    ensures ok ==> fresh(spliced) && fresh(spliced.buffered) && fresh(spliced.buffered.source)
  {
    var limited := new Limited(body, WINDOW);
    var reader := new Buffered(limited);
    Held(reader);
    var prefix, valid := Scan(reader);
    if !valid {
      return false, null;
    }
    spliced := new Spliced(prefix, reader);
    ok := true;
  }

  /** Accepting and draining gives back the upstream bytes unchanged. */
  method Relay(bytes: seq<Byte>) returns (relayed: Option<seq<Byte>>)
    ensures relayed == if Accepts(Prefix(bytes, WINDOW)) then Some(bytes) else None
  {
    var body := new Upstream(bytes);
    var ok, spliced := ValidateStream(body);
    if !ok {
      return None;
    }
    var all := spliced.ReadAll();
    relayed := Some(all);
  }

  // ---------------------------------------------------------------- in plain values

  lemma Sizes()
    ensures WINDOW == 65_536 && BUFFER_SIZE == 4_096
    ensures NEWLINE as int == '\n' as int
    ensures |DATA_FIELD| == 5 && |EVENT_FIELD| == 6
    ensures forall i :: 0 <= i < 5 ==> DATA_FIELD[i] as int == "data:"[i] as int
    ensures forall i :: 0 <= i < 6 ==> EVENT_FIELD[i] as int == "event:"[i] as int
  {
  }

  /** A character in UTF-8 (section 3 of RFC 3629). */
  function Utf8(c: char): (s: seq<Byte>)
    ensures 1 <= |s| <= 4
  {
    var n := c as int;
    if n < 0x80 then [n as Byte]
    else if n < 0x800 then [(0xC0 + n / 64) as Byte, (0x80 + n % 64) as Byte]
    else if n < 0x1_0000 then [(0xE0 + n / 4096) as Byte, (0x80 + n / 64 % 64) as Byte, (0x80 + n % 64) as Byte]
    else [(0xF0 + n / 262144) as Byte, (0x80 + n / 4096 % 64) as Byte, (0x80 + n / 64 % 64) as Byte, (0x80 + n % 64) as Byte]
  }

  /** The bytes that are trimmed are those of the white space characters of Unicode, the same
      that are trimmed from identifiers. */
  lemma SpaceIsUnicode(c: char, rest: seq<Byte>)
    ensures SpaceWidth(Utf8(c) + rest) == if Catalog.IsSpace(c) then |Utf8(c)| else 0
  {
    var n := c as int;
    if n < 0x80 {
      OneByteSpace(c, rest);
    } else if n < 0x800 {
      TwoByteSpace(c, rest);
    } else if n < 0x1_0000 {
      ThreeByteSpace(c, rest);
    } else {
      assert (Utf8(c) + rest)[0] == Utf8(c)[0];
    }
  }

  lemma OneByteSpace(c: char, rest: seq<Byte>)
    requires c as int < 0x80
    ensures SpaceWidth(Utf8(c) + rest) == if Catalog.IsSpace(c) then 1 else 0
  {
    assert (Utf8(c) + rest)[0] == Utf8(c)[0];
  }

  lemma TwoByteSpace(c: char, rest: seq<Byte>)
    requires 0x80 <= c as int < 0x800
    ensures SpaceWidth(Utf8(c) + rest) == if Catalog.IsSpace(c) then 2 else 0
  {
    var s := Utf8(c) + rest;
    assert s[0] == Utf8(c)[0] && s[1] == Utf8(c)[1];
  }

  lemma ThreeByteSpace(c: char, rest: seq<Byte>)
    requires 0x800 <= c as int < 0x1_0000
    ensures SpaceWidth(Utf8(c) + rest) == if Catalog.IsSpace(c) then 3 else 0
  {
    var s := Utf8(c) + rest;
    assert s[0] == Utf8(c)[0] && s[1] == Utf8(c)[1] && s[2] == Utf8(c)[2];
  }

  /** White space in front is taken off, character by character, and nothing else is. */
  lemma TrimsInFront(c: char, rest: seq<Byte>)
    ensures TrimLeft(Utf8(c) + rest) == if Catalog.IsSpace(c) then TrimLeft(rest) else Utf8(c) + rest
    ensures TrimLeft([]) == []
  {
    SpaceIsUnicode(c, rest);
    assert (Utf8(c) + rest)[|Utf8(c)|..] == rest;
  }

  lemma ShorterEnds(c: char, rest: seq<Byte>)
    ensures
      var s := rest + Utf8(c);
      && (|Utf8(c)| >= 2 ==> SpaceWidth(s[|s| - 1..]) == 0)
      && (|Utf8(c)| >= 3 ==> SpaceWidth(s[|s| - 2..]) != 2)
  {
    var s, u := rest + Utf8(c), Utf8(c);
    assert s[|s| - 1..] == u[|u| - 1..];
    if |u| >= 2 {
      assert s[|s| - 2..] == u[|u| - 2..];
    }
  }

  /** The same at the back. */
  lemma TrimsBehind(c: char, rest: seq<Byte>)
    requires Catalog.IsSpace(c)
    ensures TrimRight(rest + Utf8(c)) == TrimRight(rest)
  {
    var s, u := rest + Utf8(c), Utf8(c);
    SpaceIsUnicode(c, []);
    assert u + [] == u;
    ShorterEnds(c, rest);
    assert s[|s| - |u|..] == u && s[..|s| - |u|] == rest;
  }

  lemma RightTrimStep(s: seq<Byte>)
    ensures SpaceAtEnd(s) > 0 ==> SpaceWidth(s[|s| - SpaceAtEnd(s)..]) == SpaceAtEnd(s)
  {
  }

  lemma EndOfSpace(s: seq<Byte>, w: nat, i: nat)
    requires w <= |s| && w > 0 && SpaceWidth(s[|s| - w..]) == w && |s| - w <= i < |s|
    ensures s[i] != 58
  {
    assert s[i] == s[|s| - w..][i - (|s| - w)];
  }

  lemma BeforeTheEnd(s: seq<Byte>, w: nat, n: nat)
    requires w <= |s| && w > 0 && SpaceWidth(s[|s| - w..]) == w && n < |s| && s[n] == 58
    ensures n < |s| - w
  {
    if n >= |s| - w {
      EndOfSpace(s, w, n);
    }
  }

  /** Nothing before a colon is taken off at the back. */
  lemma {:induction false} ColonStays(s: seq<Byte>, n: nat)
    requires n < |s| && s[n] == 58
    ensures s[..n + 1] <= TrimRight(s)
    decreases |s|
  {
    var w := SpaceAtEnd(s);
    RightTrimStep(s);
    if w > 0 {
      BeforeTheEnd(s, w, n);
      ColonStays(s[..|s| - w], n);
      assert s[..|s| - w][..n + 1] == s[..n + 1];
    }
  }

  lemma {:induction false} RightTrimIsPrefix(s: seq<Byte>)
    ensures TrimRight(s) <= s
    decreases |s|
  {
    RightTrimStep(s);
    if SpaceAtEnd(s) > 0 {
      RightTrimIsPrefix(s[..|s| - SpaceAtEnd(s)]);
    }
  }

  /** An event line is one that has "data:" or "event:" after its leading white space. */
  lemma EventLineIff(line: seq<Byte>)
    ensures IsEventLine(line) <==> DATA_FIELD <= TrimLeft(line) || EVENT_FIELD <= TrimLeft(line)
  {
    var s := TrimLeft(line);
    RightTrimIsPrefix(s);
    if DATA_FIELD <= s {
      ColonStays(s, 4);
      assert s[..5] == DATA_FIELD;
    }
    if EVENT_FIELD <= s {
      ColonStays(s, 5);
      assert s[..6] == EVENT_FIELD;
    }
  }
}
