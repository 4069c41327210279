/**
 The parser that reads the AI client's batch replies: `parseFixBatch` undoes the
 `<<FIX N>>:` format the batch prompt asks for.
 */
module FixParser {
  import opened Base
  import opened Text

  const PREFIX := "<<FIX "
  const SUFFIX := ">>:"
  const PLACEHOLDER := "(no rewrite produced)"

  const TWO63 := 0x8000_0000_0000_0000
  const TWO64 := 0x1_0000_0000_0000_0000

  /** The value a 64-bit Go int holds after arithmetic whose true result is n. */
  function Wrap64(n: int): (w: int)
    ensures -TWO63 <= w < TWO63
    ensures -TWO63 <= n < TWO63 ==> w == n
  {
    (n + TWO63) % TWO64 - TWO63
  }

  datatype FixRequest = FixRequest(
    issueId: string,
    checkId: string,
    severity: string,
    title: string,
    detail: string,
    evidence: string,
    productTitle: string,
    productUrl: string,
    storeContext: string)

  datatype FixResponse = FixResponse(issueId: string, suggested: string)

  datatype Marker = NoMarker | Marker(n: int, rest: string)

  // ---------------------------------------------------------------- what a line and a body mean

  function MarkerOf(line: string): Marker {
    if !(PREFIX <= line) then NoMarker
    else
      var rest := line[|PREFIX|..];
      var end := Index(rest, SUFFIX);
      if end == 0 || end > |rest| then NoMarker
      else
        var digits := TrimSpace(rest[..end]);
        if AllDigits(digits)
        then Marker(Wrap64(DecimalValue(digits)), TrimSpace(rest[end + |SUFFIX|..]))
        else NoMarker
  }

  function LineMarker(line: string): Marker {
    MarkerOf(TrimSpace(line))
  }

  /** What a line that is no marker adds to the open chunk. */
  function Piece(line: string): string {
    if TrimSpace(line) == "" then "" else " " + TrimSpace(line)
  }

  /** The text lines add to the chunk open before them: everything up to the next marker. */
  function Continuation(lines: seq<string>): string {
    if lines == [] || LineMarker(lines[0]).Marker? then ""
    else Piece(lines[0]) + Continuation(lines[1..])
  }

  /** The position of the last marker with number n. */
  function LastMarker(lines: seq<string>, n: int): (p: Option<nat>)
    ensures p.Some? ==> p.value < |lines| && LineMarker(lines[p.value]).Marker? && LineMarker(lines[p.value]).n == n
  {
    hide LineMarker;
    if lines == [] then None
    else
      var m := LineMarker(lines[|lines| - 1]);
      if m.Marker? && m.n == n then Some(|lines| - 1) else LastMarker(lines[..|lines| - 1], n)
  }

  function ChunkAt(lines: seq<string>, p: nat): string
    requires p < |lines| && LineMarker(lines[p]).Marker?
  {
    LineMarker(lines[p]).rest + Continuation(lines[p + 1..])
  }

  /** What a reply proposes for issue number n: the chunk of its last marker. */
  function Suggestion(lines: seq<string>, n: int): string {
    match LastMarker(lines, n)
    case None => PLACEHOLDER
    case Some(p) => TrimSpace(ChunkAt(lines, p))
  }

  predicate NoMarkers(lines: seq<string>) {
    forall k | 0 <= k < |lines| :: LineMarker(lines[k]).NoMarker?
  }

  lemma {:induction false} ContinuationAppend(lines: seq<string>, line: string)
    ensures Continuation(lines + [line]) ==
            if NoMarkers(lines) && LineMarker(line).NoMarker? then Continuation(lines) + Piece(line)
            else Continuation(lines)
  {
    hide LineMarker, Piece;
    if lines == [] {
      assert lines + [line] == [line];
    } else {
      assert (lines + [line])[1..] == lines[1..] + [line];
      ContinuationAppend(lines[1..], line);
      assert lines == [lines[0]] + lines[1..];
      assert NoMarkers(lines) <==> LineMarker(lines[0]).NoMarker? && NoMarkers(lines[1..]);
    }
  }

  lemma ChunkAppend(lines: seq<string>, line: string, p: nat)
    requires p < |lines| && LineMarker(lines[p]).Marker?
    ensures ChunkAt(lines + [line], p) ==
            if NoMarkers(lines[p + 1..]) && LineMarker(line).NoMarker? then ChunkAt(lines, p) + Piece(line)
            else ChunkAt(lines, p)
  {
    hide LineMarker, Piece, Continuation;
    assert (lines + [line])[p + 1..] == lines[p + 1..] + [line];
    ContinuationAppend(lines[p + 1..], line);
  }

  lemma ChunkLast(lines: seq<string>, line: string)
    requires LineMarker(line).Marker?
    ensures ChunkAt(lines + [line], |lines|) == LineMarker(line).rest
  {
    assert (lines + [line])[|lines| + 1..] == [];
  }

  lemma LastMarkerAppend(lines: seq<string>, line: string, n: int)
    ensures LastMarker(lines + [line], n) ==
            if LineMarker(line).Marker? && LineMarker(line).n == n then Some(|lines|) else LastMarker(lines, n)
  {
    assert (lines + [line])[..|lines|] == lines;
  }

  /** A marker appended to any reply decides its own number and leaves every other suggestion alone. */
  lemma AppendedMarkerDecides(lines: seq<string>, line: string, n: int)
    requires LineMarker(line).Marker?
    ensures Suggestion(lines + [line], n) ==
            if LineMarker(line).n == n then TrimSpace(LineMarker(line).rest) else Suggestion(lines, n)
  {
    hide LineMarker, LastMarker, ChunkAt;
    LastMarkerAppend(lines, line, n);
    ChunkLast(lines, line);
    if LastMarker(lines, n).Some? {
      ChunkAppend(lines, line, LastMarker(lines, n).value);
    }
  }

  /** The last marker of all has number n: its chunk is the open one. */
  predicate IsOpen(lines: seq<string>, n: int) {
    if lines == [] then false
    else
      var m := LineMarker(lines[|lines| - 1]);
      if m.Marker? then m.n == n else IsOpen(lines[..|lines| - 1], n)
  }

  lemma {:induction false} OpenIsLast(lines: seq<string>, n: int)
    ensures IsOpen(lines, n) <==> LastMarker(lines, n).Some? && NoMarkers(lines[LastMarker(lines, n).value + 1..])
    decreases |lines|
  {
    hide LineMarker, LastMarker, IsOpen, NoMarkers;
    if lines == [] {
      NothingOpen(n);
    } else {
      var init, last := lines[..|lines| - 1], lines[|lines| - 1];
      assert lines == init + [last];
      OpenIsLast(init, n);
      OpenAppend(init, last, n);
      LastMarkerAppend(init, last, n);
      NoMarkersIn([]);
      var p := LastMarker(init, n);
      if p.Some? && !(LineMarker(last).Marker? && LineMarker(last).n == n) {
        assert lines[p.value + 1..] == init[p.value + 1..] + [last];
        NoMarkersAppend(init[p.value + 1..], last);
      } else if LineMarker(last).Marker? && LineMarker(last).n == n {
        assert lines[|init| + 1..] == [];
      }
    }
  }

  lemma NoMarkersIn(none: seq<string>)
    requires none == []
    ensures NoMarkers(none)
  {}

  lemma NothingOpen(n: int)
    ensures !IsOpen([], n) && LastMarker([], n).None?
  {}

  lemma NoMarkersAppend(lines: seq<string>, line: string)
    ensures NoMarkers(lines + [line]) <==> NoMarkers(lines) && LineMarker(line).NoMarker?
  {
    hide LineMarker;
    var more := lines + [line];
    assert more[|lines|] == line;
    if NoMarkers(more) {
      forall k | 0 <= k < |lines| ensures LineMarker(lines[k]).NoMarker? {
        assert more[k] == lines[k];
      }
    }
  }

  lemma OpenAppend(lines: seq<string>, line: string, n: int)
    ensures IsOpen(lines + [line], n) <==>
            if LineMarker(line).Marker? then LineMarker(line).n == n else IsOpen(lines, n)
  {
    hide LineMarker;
    assert (lines + [line])[..|lines|] == lines;
  }

  /** Nothing, or one blank and a trimmed text. */
  predicate Tail(s: string) {
    s == "" || (|s| > 1 && s[0] == ' ' && Trimmed(s[1..]))
  }

  /** A trimmed text, perhaps after one blank. */
  predicate Blanked(s: string) {
    Trimmed(s) || Tail(s)
  }

  lemma TailOfText(t: string)
    requires Trimmed(t) && t != ""
    ensures Tail(" " + t)
  {
    assert (" " + t)[1..] == t;
  }

  lemma TailConcat(a: string, b: string)
    requires Blanked(a) && Tail(b)
    ensures Blanked(a + b) && (Tail(a) ==> Tail(a + b))
  {
    if a == "" {
      assert a + b == b;
    } else if b == "" {
      assert a + b == a;
    } else {
      assert (a + b)[|a + b| - 1] == b[1..][|b| - 2];
      if Tail(a) {
        assert (a + b)[1..] == a[1..] + b && a[1..][0] == (a + b)[1..][0];
        assert (a + b)[1..][|a + b| - 2] == b[1..][|b| - 2];
      }
    }
  }

  lemma PieceShape(line: string)
    ensures Tail(Piece(line)) && Trimmed(TrimSpace(line))
  {
    hide TrimSpace, IsSpace;
    var _, _ := TrimSpaceTrims(line);
    if TrimSpace(line) != "" {
      TailOfText(TrimSpace(line));
    }
  }

  lemma {:induction false} ContinuationShape(lines: seq<string>)
    ensures Tail(Continuation(lines))
  {
    if lines != [] && LineMarker(lines[0]).NoMarker? {
      hide LineMarker, Piece, Tail;
      ContinuationShape(lines[1..]);
      PieceShape(lines[0]);
      TailConcat(Piece(lines[0]), Continuation(lines[1..]));
    }
  }

  lemma MarkerTextIsTrimmed(line: string)
    ensures LineMarker(line).Marker? ==> Trimmed(LineMarker(line).rest)
  {
    hide TrimSpace, Trimmed, Index, DecimalValue, Wrap64;
    var trim := TrimSpace(line);
    if PREFIX <= trim {
      var rest := trim[|PREFIX|..];
      var end := Index(rest, SUFFIX);
      if end + |SUFFIX| <= |rest| {
        var _, _ := TrimSpaceTrims(rest[end + |SUFFIX|..]);
      }
    }
  }

  lemma ChunkShape(lines: seq<string>, p: nat)
    requires p < |lines| && LineMarker(lines[p]).Marker?
    ensures Blanked(ChunkAt(lines, p))
  {
    hide LineMarker, Continuation, Tail;
    MarkerTextIsTrimmed(lines[p]);
    ContinuationShape(lines[p + 1..]);
    TailConcat(LineMarker(lines[p]).rest, Continuation(lines[p + 1..]));
  }

  lemma TrimJoined(chunk: string, t: string)
    requires Blanked(chunk) && Trimmed(t) && t != ""
    ensures TrimSpace(chunk + (" " + t)) == if TrimSpace(chunk) == "" then t else TrimSpace(chunk) + " " + t
  {
    hide TrimSpace;
    var all := chunk + (" " + t);
    if Trimmed(chunk) {
      TrimmedStays(chunk);
      if chunk == "" {
        assert all == " " + t;
        TrimSpaceAfterBlank(t);
      } else {
        assert all == chunk + " " + t && all[|all| - 1] == t[|t| - 1];
        TrimmedStays(all);
      }
    } else {
      var u := chunk[1..];
      var longer := u + " " + t;
      assert chunk == " " + u && all == " " + longer && longer[|longer| - 1] == t[|t| - 1];
      TrimSpaceAfterBlank(u);
      TrimSpaceAfterBlank(longer);
    }
  }

  /** What a piece adds to a chunk, once that is trimmed. */
  lemma PieceJoins(chunk: string, line: string)
    requires Blanked(chunk)
    ensures var t, was := TrimSpace(line), TrimSpace(chunk);
            TrimSpace(chunk + Piece(line)) == if t == "" then was else if was == "" then t else was + " " + t
  {
    hide TrimSpace, Blanked, Trimmed;
    PieceShape(line);
    if TrimSpace(line) == "" {
      assert chunk + Piece(line) == chunk;
    } else {
      TrimJoined(chunk, TrimSpace(line));
    }
  }

  /**
   A line that is no marker goes to the last marker before it: its trimmed text, if
   it has any, is added to that suggestion after a blank. It changes no other.
   */
  lemma AppendedTextContinues(lines: seq<string>, line: string, n: int)
    requires LineMarker(line).NoMarker?
    ensures var t, was := TrimSpace(line), Suggestion(lines, n);
            Suggestion(lines + [line], n) ==
            if t == "" || !IsOpen(lines, n) then was else if was == "" then t else was + " " + t
  {
    hide LineMarker, LastMarker, ChunkAt, TrimSpace, IsOpen, Piece, NoMarkers, Blanked;
    LastMarkerAppend(lines, line, n);
    OpenIsLast(lines, n);
    if LastMarker(lines, n).Some? {
      var p := LastMarker(lines, n).value;
      ChunkAppend(lines, line, p);
      ChunkShape(lines, p);
      PieceJoins(ChunkAt(lines, p), line);
    }
  }

  // ---------------------------------------------------------------- the parsing methods

  lemma WrapStep(v: nat, d: nat)
    ensures Wrap64(Wrap64(v) * 10 + d) == Wrap64(v * 10 + d)
  {
    var turns := (v + TWO63) / TWO64;
    assert Wrap64(v) == v - turns * TWO64;
    WrapTurns(v * 10 + d, -10 * turns);
  }

  lemma WrapTurns(n: int, turns: int)
    ensures Wrap64(n + turns * TWO64) == Wrap64(n)
  {
    var q := (n + TWO63) / TWO64;
    assert (n + turns * TWO64 + TWO63) / TWO64 == q + turns;
  }

  method MatchFixMarker(line: string) returns (n: int, text: string, ok: bool)
    ensures (if ok then Marker(n, text) else NoMarker) == MarkerOf(line)
  {
    if !(PREFIX <= line) {
      return 0, "", false;
    }
    var rest := line[|PREFIX|..];
    var end := Index(rest, SUFFIX);
    if end == 0 || end > |rest| {
      return 0, "", false;
    }
    var digits := TrimSpace(rest[..end]);
    n := 0;
    for i := 0 to |digits|
      invariant AllDigits(digits[..i])
      invariant n == Wrap64(DecimalValue(digits[..i]))
    {
      if !IsDigit(digits[i]) {
        return 0, "", false;
      }
      assert digits[..i + 1][..i] == digits[..i];
      WrapStep(DecimalValue(digits[..i]), DigitValue(digits[i]));
      n := Wrap64(n * 10 + DigitValue(digits[i]));
    }
    assert digits[..|digits|] == digits;
    return n, TrimSpace(rest[end + |SUFFIX|..]), true;
  }

  /**
   The parser's state after reading `lines`: one chunk per number seen, and the
   number of the chunk opened last, at position `last`.
   */
  ghost predicate Parsed(lines: seq<string>, chunks: map<int, string>, current: Option<int>, last: nat) {
    && (forall n :: n in chunks <==> LastMarker(lines, n).Some?)
    && (forall n | n in chunks :: chunks[n] == ChunkAt(lines, LastMarker(lines, n).value))
    && (current.None? ==> NoMarkers(lines))
    && (current.Some? ==>
          && LastMarker(lines, current.value) == Some(last)
          && NoMarkers(lines[last + 1..]))
  }

  lemma ParsedMarker(lines: seq<string>, chunks: map<int, string>, current: Option<int>, last: nat, line: string)
    requires Parsed(lines, chunks, current, last) && LineMarker(line).Marker?
    ensures var m := LineMarker(line);
            Parsed(lines + [line], chunks[m.n := m.rest], Some(m.n), |lines|)
  {
    hide LineMarker, LastMarker, ChunkAt;
    forall n ensures LastMarker(lines + [line], n) ==
                     if LineMarker(line).n == n then Some(|lines|) else LastMarker(lines, n)
    {
      LastMarkerAppend(lines, line, n);
    }
    ChunkLast(lines, line);
    forall n | n in chunks
      ensures ChunkAt(lines + [line], LastMarker(lines, n).value) == chunks[n]
    {
      ChunkAppend(lines, line, LastMarker(lines, n).value);
    }
  }

  /** Every marker number but the current one was last seen before a later marker. */
  lemma OnlyCurrentIsOpen(lines: seq<string>, chunks: map<int, string>, current: Option<int>, last: nat, n: int)
    requires Parsed(lines, chunks, current, last) && n in chunks
    ensures current.Some?
    ensures NoMarkers(lines[LastMarker(lines, n).value + 1..]) <==> n == current.value
  {
    hide LineMarker, LastMarker;
    var p := LastMarker(lines, n).value;
    if current.Some? && p < last {
      assert lines[p + 1..][last - p - 1] == lines[last];
    }
  }

  lemma ParsedText(lines: seq<string>, chunks: map<int, string>, current: Option<int>, last: nat, line: string)
    requires Parsed(lines, chunks, current, last) && LineMarker(line).NoMarker?
    ensures current.Some? ==> current.value in chunks
    ensures var grown := if current.None? then chunks
                         else chunks[current.value := chunks[current.value] + Piece(line)];
            Parsed(lines + [line], grown, current, last)
  {
    hide LineMarker, LastMarker, ChunkAt, Piece;
    forall n ensures LastMarker(lines + [line], n) == LastMarker(lines, n) {
      LastMarkerAppend(lines, line, n);
    }
    forall n | n in chunks
      ensures current.Some?
      ensures ChunkAt(lines + [line], LastMarker(lines, n).value) ==
              if n == current.value then chunks[n] + Piece(line) else chunks[n]
    {
      OnlyCurrentIsOpen(lines, chunks, current, last, n);
      ChunkAppend(lines, line, LastMarker(lines, n).value);
    }
    if current.Some? {
      assert (lines + [line])[last + 1..] == lines[last + 1..] + [line];
    }
  }

  lemma ParsedSuggests(lines: seq<string>, chunks: map<int, string>, current: Option<int>, last: nat, n: int)
    requires Parsed(lines, chunks, current, last)
    ensures Suggestion(lines, n) == if n in chunks then TrimSpace(chunks[n]) else PLACEHOLDER
  {}

  lemma NothingParsed()
    ensures Parsed([], map[], None, 0)
  {}

  /** One response per request, in order, whatever the body is. */
  function FixBatch(body: string, issues: seq<FixRequest>): (out: seq<FixResponse>)
    ensures |out| == |issues|
    ensures forall i | 0 <= i < |out| ::
              out[i] == FixResponse(issues[i].issueId, Suggestion(SplitLines(body), i + 1))
  {
    seq(|issues|, i requires 0 <= i < |issues| => FixResponse(issues[i].issueId, Suggestion(SplitLines(body), i + 1)))
  }

  method ParseFixBatch(body: string, issues: seq<FixRequest>) returns (out: seq<FixResponse>)
    ensures out == FixBatch(body, issues)
  {
    hide Parsed, Suggestion, MarkerOf, TrimSpace;
    out := seq(|issues|, i requires 0 <= i < |issues| => FixResponse(issues[i].issueId, PLACEHOLDER));
    var chunks: map<int, string> := map[];
    var current: Option<int> := None;
    ghost var last := 0;
    var lines := SplitLines(body);
    NothingParsed();
    assert lines[..0] == [];
    for i := 0 to |lines|
      invariant Parsed(lines[..i], chunks, current, last)
    {
      assert lines[..i + 1] == lines[..i] + [lines[i]];
      var trim := TrimSpace(lines[i]);
      var n, rest, ok := MatchFixMarker(trim);
      if ok {
        ParsedMarker(lines[..i], chunks, current, last, lines[i]);
        chunks, current, last := chunks[n := rest], Some(n), i;
        continue;
      }
      ParsedText(lines[..i], chunks, current, last, lines[i]);
      if current.Some? {
        var text := chunks[current.value];
        if trim != "" {
          chunks := chunks[current.value := text + " " + trim];
          assert text + " " + trim == text + Piece(lines[i]);
        } else {
          assert text + Piece(lines[i]) == text;
          assert chunks[current.value := text] == chunks;
        }
      }
    }
    assert lines[..|lines|] == lines;
    forall n: int ensures Suggestion(lines, n) == if n in chunks then TrimSpace(chunks[n]) else PLACEHOLDER {
      ParsedSuggests(lines, chunks, current, last, n);
    }
    out := Collect(out, chunks);
  }

  /** The final loop over the chunk map, in whatever order the map yields its keys. */
  method Collect(blank: seq<FixResponse>, chunks: map<int, string>) returns (out: seq<FixResponse>)
    ensures |out| == |blank|
    ensures forall i | 0 <= i < |out| ::
              out[i] == if i + 1 in chunks then blank[i].(suggested := TrimSpace(chunks[i + 1])) else blank[i]
  {
    out := blank;
    var todo := chunks.Keys;
    while todo != {}
      invariant todo <= chunks.Keys && |out| == |blank|
      invariant forall n | n in chunks && n !in todo && 1 <= n <= |out| ::
                  out[n - 1] == blank[n - 1].(suggested := TrimSpace(chunks[n]))
      invariant forall i | 0 <= i < |out| && (i + 1 !in chunks || i + 1 in todo) :: out[i] == blank[i]
      decreases todo
    {
      EmptyOrHasInt(todo);
      var n :| n in todo;
      todo := todo - {n};
      var idx := n - 1;
      if 0 <= idx < |out| {
        out := out[idx := out[idx].(suggested := TrimSpace(chunks[n]))];
      }
    }
  }

  // ---------------------------------------------------------------- printing and parsing back

  /** One line of a reply in the requested format. */
  function FixLine(n: nat, text: string): string {
    PREFIX + Decimal(n) + SUFFIX + (if text == "" then "" else " " + text)
  }

  datatype Entry = Entry(n: nat, text: string)

  function FixLines(entries: seq<Entry>): seq<string> {
    if entries == [] then []
    else FixLines(entries[..|entries| - 1]) + [FixLine(entries[|entries| - 1].n, entries[|entries| - 1].text)]
  }

  function Render(entries: seq<Entry>): string {
    JoinLines(FixLines(entries))
  }

  /** The text of the last entry whose number a Go int reads as n. */
  function LastText(entries: seq<Entry>, n: int): Option<string> {
    if entries == [] then None
    else if Wrap64(entries[|entries| - 1].n) == n then Some(entries[|entries| - 1].text)
    else LastText(entries[..|entries| - 1], n)
  }

  predicate PlainText(text: string) {
    Trimmed(text) && '\n' !in text
  }

  lemma {:induction false} DigitsAreNoSpace(digits: string)
    requires AllDigits(digits) && digits != []
    ensures TrimSpace(digits) == digits && SUFFIX[0] !in digits && '\n' !in digits
  {
    TrimmedStays(digits);
  }

  lemma MarkerOfDigits(digits: string, tail: string)
    requires AllDigits(digits) && digits != []
    ensures MarkerOf(PREFIX + (digits + SUFFIX + tail)) == Marker(Wrap64(DecimalValue(digits)), TrimSpace(tail))
  {
    hide TrimSpace, IsSpace, IsDigit, Wrap64, DecimalValue, Index;
    DigitsAreNoSpace(digits);
    IndexAfter(digits, SUFFIX, tail);
    var rest := digits + SUFFIX + tail;
    var line := PREFIX + rest;
    assert line[|PREFIX|..] == rest;
    assert rest[..|digits|] == digits && rest[|digits| + |SUFFIX|..] == tail;
  }

  /**
   A trimmed line is a marker exactly when it is the prefix, something that is not
   empty up to the first suffix, and the rest, and that something is digits once
   trimmed; blanks alone count as the number 0.
   */
  lemma MarkerExactly(line: string, head: string, tail: string)
    requires line == PREFIX + head + SUFFIX + tail
    requires forall k | 0 <= k < |head| :: !(SUFFIX <= (head + SUFFIX + tail)[k..])
    ensures MarkerOf(line) == if head != "" && AllDigits(TrimSpace(head))
                              then Marker(Wrap64(DecimalValue(TrimSpace(head))), TrimSpace(tail)) else NoMarker
  {
    hide TrimSpace, Index, DecimalValue, Wrap64;
    var rest := head + SUFFIX + tail;
    var end := Index(rest, SUFFIX);
    assert line[|PREFIX|..] == rest && rest[|head|..] == SUFFIX + tail;
    if end > |head| {
      IndexIsFirst(rest, SUFFIX, |head|);
    }
    assert end == |head| && rest[..end] == head && rest[end + |SUFFIX|..] == tail;
  }

  lemma MarkersHaveTheFormat(line: string)
    ensures MarkerOf(line).Marker? ==> exists head: string, tail: string :: line == PREFIX + head + SUFFIX + tail
  {
    if PREFIX <= line {
      var rest := line[|PREFIX|..];
      var end := Index(rest, SUFFIX);
      if Found(rest, SUFFIX) {
        var head, tail := FoundSplits(rest, SUFFIX);
        hide Index, TrimSpace;
        assert line == PREFIX + rest;
        assert line == PREFIX + head + SUFFIX + tail;
      }
    }
  }

  /** The marker a line was printed with is read back, its number reduced to 64 bits. */
  lemma FixLineReadsBack(n: nat, text: string)
    requires PlainText(text)
    ensures LineMarker(FixLine(n, text)) == Marker(Wrap64(n), text)
    ensures '\n' !in FixLine(n, text)
  {
    hide MarkerOf, TrimSpace, Wrap64, DecimalValue, Decimal;
    var digits := Decimal(n);
    var tail := if text == "" then "" else " " + text;
    DigitsAreNoSpace(digits);
    MarkerOfDigits(digits, tail);
    DecimalRoundTrip(n);
    TrimSpaceAfterBlank(text);
    TrimmedStays(text);
    var line := FixLine(n, text);
    assert line == PREFIX + (digits + SUFFIX + tail);
    assert line[0] == '<' && line[|line| - 1] == if text == "" then ':' else text[|text| - 1];
    TrimmedStays(line);
  }

  lemma {:induction false} FixLinesSuggest(entries: seq<Entry>, n: int)
    requires forall k | 0 <= k < |entries| :: PlainText(entries[k].text)
    ensures |FixLines(entries)| == |entries|
    ensures forall k | 0 <= k < |entries| :: '\n' !in FixLines(entries)[k]
    ensures Suggestion(FixLines(entries), n) ==
            match LastText(entries, n) case Some(text) => text case None => PLACEHOLDER
  {
    hide Suggestion, LineMarker, FixLine;
    if entries == [] {
      NothingSuggested(n);
    } else {
      var init, last := entries[..|entries| - 1], entries[|entries| - 1];
      FixLinesSuggest(init, n);
      FixLineReadsBack(last.n, last.text);
      AppendedMarkerDecides(FixLines(init), FixLine(last.n, last.text), n);
      TrimmedStays(last.text);
    }
  }

  lemma NothingSuggested(n: int)
    ensures Suggestion([], n) == PLACEHOLDER
  {}

  /**
   Round trip: whatever entries are printed, in whatever order and with whatever
   repetitions, issue n gets the text of the last entry numbered n, and the
   placeholder when there is none.
   */
  lemma RenderParses(entries: seq<Entry>, n: int)
    requires entries != [] && forall k | 0 <= k < |entries| :: PlainText(entries[k].text)
    ensures Suggestion(SplitLines(Render(entries)), n) ==
            match LastText(entries, n) case Some(text) => text case None => PLACEHOLDER
  {
    FixLinesSuggest(entries, n);
    SplitJoin(FixLines(entries));
  }

  lemma {:induction false} LastTextOf(entries: seq<Entry>, k: nat)
    requires k < |entries| && entries[k].n < TWO63
    requires forall i | 0 <= i < |entries| && i != k :: entries[i].n != entries[k].n && entries[i].n < TWO63
    ensures LastText(entries, entries[k].n) == Some(entries[k].text)
  {
    if k < |entries| - 1 {
      LastTextOf(entries[..|entries| - 1], k);
    }
  }

  /** Distinct numbers in any order: each issue gets exactly its own text back. */
  lemma AnyOrderParses(entries: seq<Entry>, k: nat)
    requires k < |entries| && forall i | 0 <= i < |entries| :: PlainText(entries[i].text) && entries[i].n < TWO63
    requires forall i, j | 0 <= i < j < |entries| :: entries[i].n != entries[j].n
    ensures Suggestion(SplitLines(Render(entries)), entries[k].n) == entries[k].text
  {
    RenderParses(entries, entries[k].n);
    LastTextOf(entries, k);
  }

  /**
   A marker numbered beyond the batch is ignored exactly when its number, reduced
   to 64 bits, is not an issue's own number.
   */
  lemma StrayMarkerIgnored(entries: seq<Entry>, stray: nat, text: string, issues: nat)
    requires entries != [] && forall k | 0 <= k < |entries| :: PlainText(entries[k].text)
    requires PlainText(text) && forall k | 0 <= k < |entries| :: entries[k].text != text
    requires text != PLACEHOLDER
    ensures (forall n | 1 <= n <= issues ::
               Suggestion(SplitLines(Render(entries + [Entry(stray, text)])), n) ==
                 Suggestion(SplitLines(Render(entries)), n))
            <==> !(1 <= Wrap64(stray) <= issues)
  {
    var more := entries + [Entry(stray, text)];
    assert more[..|entries|] == entries;
    forall n: int
      ensures Suggestion(SplitLines(Render(more)), n) ==
              if Wrap64(stray) == n then text else Suggestion(SplitLines(Render(entries)), n)
      ensures Suggestion(SplitLines(Render(entries)), n) != text
    {
      RenderParses(more, n);
      RenderParses(entries, n);
      LastTextIsAText(entries, n);
    }
    if 1 <= Wrap64(stray) <= issues {
      var n := Wrap64(stray);
      assert Suggestion(SplitLines(Render(more)), n) != Suggestion(SplitLines(Render(entries)), n);
    }
  }

  lemma {:induction false} LastTextIsAText(entries: seq<Entry>, n: int)
    ensures LastText(entries, n).Some? ==>
            exists k :: 0 <= k < |entries| && entries[k].text == LastText(entries, n).value
  {
    if entries != [] {
      LastTextIsAText(entries[..|entries| - 1], n);
      var t := LastText(entries, n);
      if t.Some? && Wrap64(entries[|entries| - 1].n) != n {
        var k :| 0 <= k < |entries| - 1 && entries[..|entries| - 1][k].text == t.value;
        assert entries[k].text == t.value;
      }
    }
  }

  /** A concrete out-of-range marker that is not ignored: 2^64 + 1 is read as 1. */
  lemma HugeMarkerHits(text: string)
    requires PlainText(text)
    ensures Suggestion(SplitLines(Render([Entry(TWO64 + 1, text)])), 1) == text
  {
    hide Suggestion, SplitLines, Render, PlainText;
    RenderParses([Entry(TWO64 + 1, text)], 1);
  }

  // ---------------------------------------------------------------- texts of several lines

  /** An answer as it is printed: the first line next to the marker, the others below. */
  datatype Block = Block(n: nat, first: string, more: seq<string>)

  function BlockLines(b: Block): seq<string> {
    [FixLine(b.n, b.first)] + b.more
  }

  function AllLines(blocks: seq<Block>): seq<string> {
    if blocks == [] then [] else AllLines(blocks[..|blocks| - 1]) + BlockLines(blocks[|blocks| - 1])
  }

  /** The text and the trimmed lines that are not blank, with one blank between any two. */
  function Spaced(text: string, lines: seq<string>): string {
    if lines == [] then text
    else
      var was, t := Spaced(text, lines[..|lines| - 1]), TrimSpace(lines[|lines| - 1]);
      if t == "" then was else if was == "" then t else was + " " + t
  }

  /** Any lines may follow a block's first, but no markers. */
  predicate Printable(b: Block) {
    PlainText(b.first) && forall k | 0 <= k < |b.more| :: '\n' !in b.more[k] && LineMarker(b.more[k]).NoMarker?
  }

  function LastBlock(blocks: seq<Block>, n: int): Option<Block> {
    if blocks == [] then None
    else if Wrap64(blocks[|blocks| - 1].n) == n then Some(blocks[|blocks| - 1])
    else LastBlock(blocks[..|blocks| - 1], n)
  }

  lemma {:induction false} BlockSuggests(lines: seq<string>, b: Block, n: int)
    requires Printable(b)
    ensures IsOpen(lines + BlockLines(b), n) <==> n == Wrap64(b.n)
    ensures Suggestion(lines + BlockLines(b), n) ==
            if n == Wrap64(b.n) then Spaced(b.first, b.more) else Suggestion(lines, n)
    decreases |b.more|
  {
    hide Suggestion, LineMarker, FixLine, IsOpen, TrimSpace;
    var marker := FixLine(b.n, b.first);
    if b.more == [] {
      FixLineReadsBack(b.n, b.first);
      TrimmedStays(b.first);
      assert BlockLines(b) == [marker];
      OpenAppend(lines, marker, n);
      AppendedMarkerDecides(lines, marker, n);
    } else {
      var init, last := b.(more := b.more[..|b.more| - 1]), b.more[|b.more| - 1];
      BlockSuggests(lines, init, n);
      assert lines + BlockLines(b) == (lines + BlockLines(init)) + [last];
      OpenAppend(lines + BlockLines(init), last, n);
      AppendedTextContinues(lines + BlockLines(init), last, n);
    }
  }

  lemma {:induction false} BlocksSuggest(blocks: seq<Block>, n: int)
    requires forall k | 0 <= k < |blocks| :: Printable(blocks[k])
    ensures Suggestion(AllLines(blocks), n) ==
            match LastBlock(blocks, n) case Some(b) => Spaced(b.first, b.more) case None => PLACEHOLDER
    ensures forall k | 0 <= k < |AllLines(blocks)| :: '\n' !in AllLines(blocks)[k]
  {
    hide Suggestion, LineMarker, FixLine, Spaced;
    if blocks == [] {
      NothingSuggested(n);
    } else {
      var init, last := blocks[..|blocks| - 1], blocks[|blocks| - 1];
      BlocksSuggest(init, n);
      BlockSuggests(AllLines(init), last, n);
      FixLineReadsBack(last.n, last.first);
    }
  }

  /**
   Round trip for texts of several lines, blank ones among them: issue n gets the
   lines of the last block numbered n, trimmed and joined by single blanks.
   */
  lemma BlocksParse(blocks: seq<Block>, n: int)
    requires blocks != [] && forall k | 0 <= k < |blocks| :: Printable(blocks[k])
    ensures Suggestion(SplitLines(JoinLines(AllLines(blocks))), n) ==
            match LastBlock(blocks, n) case Some(b) => Spaced(b.first, b.more) case None => PLACEHOLDER
  {
    BlocksSuggest(blocks, n);
    assert AllLines(blocks) != [];
    SplitJoin(AllLines(blocks));
  }
}
