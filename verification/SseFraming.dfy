/** Cutting server-sent-event frames out of a text buffer, and the data lines of a frame. The blank lines recognised are
  * two line feeds and two carriage-return line-feed pairs, a subset of HTML Living Standard section 9.2.5. */
module SseFraming {
  import opened Wrappers
  import opened Text

  const LF_LF := "\n\n"
  const CRLF_CRLF := "\r\n\r\n"

  /** Where the first frame ends and how long the delimiter behind it is. */
  function NextFrameBoundary(buffer: string): (r: Option<(nat, nat)>)
    ensures r.Some? ==> r.value.0 + r.value.1 <= |buffer| && r.value.1 > 0
  {
    match (Find(buffer, LF_LF), Find(buffer, CRLF_CRLF))
    case (Some(lf), Some(crlf)) => if crlf < lf then Some((crlf, 4)) else Some((lf, 2))
    case (Some(lf), None) => Some((lf, 2))
    case (None, Some(crlf)) => Some((crlf, 4))
    case (None, None) => None
  }

  predicate Delimiter(buffer: string, i: nat, length: nat) {
    || (length == 2 && At(buffer, LF_LF, i))
    || (length == 4 && At(buffer, CRLF_CRLF, i))
  }

  /** The boundary is the earliest delimiter of either kind; the two kinds never start at the same place. */
  lemma BoundaryIsEarliestDelimiter(buffer: string, i: nat, length: nat)
    ensures NextFrameBoundary(buffer) == Some((i, length))
       <==> Delimiter(buffer, i, length) && forall j: nat, l: nat | j < i :: !Delimiter(buffer, j, l)
    ensures NextFrameBoundary(buffer).None? ==> !Delimiter(buffer, i, length)
  {
    if Delimiter(buffer, i, length) && forall j: nat, l: nat | j < i :: !Delimiter(buffer, j, l) {
      DelimiterCharacters(buffer, i);
      match NextFrameBoundary(buffer)
      case Some((e, l)) =>
        assert Delimiter(buffer, e, l);
        assert e == i;
      case None =>
    }
    if NextFrameBoundary(buffer) == Some((i, length)) {
      forall j: nat, l: nat | j < i ensures !Delimiter(buffer, j, l) {
      }
    }
  }

  lemma DelimiterIsLocal(buffer: string, more: string, i: nat, length: nat)
    ensures i + length <= |buffer| ==> Delimiter(buffer + more, i, length) == Delimiter(buffer, i, length)
  {
    assert i + length <= |buffer| ==> (buffer + more)[i..i + length] == buffer[i..i + length];
  }

  /** The characters of a delimiter, one by one. */
  lemma DelimiterCharacters(buffer: string, i: nat)
    ensures At(buffer, LF_LF, i) ==> buffer[i] == '\n' && buffer[i + 1] == '\n'
    ensures At(buffer, CRLF_CRLF, i) ==> buffer[i] == '\r' && buffer[i + 2] == '\r'
  {
    if At(buffer, LF_LF, i) {
      assert buffer[i] == buffer[i..i + 2][0] && buffer[i + 1] == buffer[i..i + 2][1];
    }
    if At(buffer, CRLF_CRLF, i) {
      assert buffer[i] == buffer[i..i + 4][0] && buffer[i + 2] == buffer[i..i + 4][2];
    }
  }

  /** A delimiter complete in the buffer stays the earliest one whatever is appended: no delimiter that starts before it
    * can be completed by later text. */
  lemma BoundaryIsStable(buffer: string, more: string)
    requires NextFrameBoundary(buffer).Some?
    ensures NextFrameBoundary(buffer + more) == NextFrameBoundary(buffer)
  {
    var (i, length) := NextFrameBoundary(buffer).value;
    var longer := buffer + more;
    BoundaryIsEarliestDelimiter(buffer, i, length);
    DelimiterIsLocal(buffer, more, i, length);
    DelimiterCharacters(longer, i);
    hide NextFrameBoundary;
    forall j: nat, l: nat | j < i ensures !Delimiter(longer, j, l) {
      // A CRLF pair one place before an LF pair would disagree with it where they overlap.
      DelimiterCharacters(longer, j);
      DelimiterIsLocal(buffer, more, j, l);
    }
    BoundaryIsEarliestDelimiter(longer, i, length);
  }

  /** The payloads of the `data:` lines of a frame, in order. */
  function DataLines(frame: string): seq<string> {
    DataOf(Lines(frame))
  }

  function DataOf(lines: seq<string>): seq<string> {
    if lines == [] then []
    else if "data:" <= lines[0] then [TrimStart(lines[0][5..])] + DataOf(lines[1..])
    else DataOf(lines[1..])
  }

  // ---------- Writing frames ----------

  /** A line of a frame: a payload behind `data:`, with or without a blank, or anything else. */
  datatype Line = Data(payload: string, spaced: bool) | Other(text: string) {
    function Text(): string {
      match this
      case Data(payload, true) => "data: " + payload
      case Data(payload, false) => "data:" + payload
      case Other(text) => text
    }

    predicate Writable() {
      && OneLine(Text())
      && match this
         case Data(payload, _) => payload == "" || !IsWhitespace(payload[0])
         case Other(text) => !("data:" <= text)
    }
  }

  predicate OneLine(text: string) {
    '\n' !in text && (text != "" ==> text[|text| - 1] != '\r')
  }

  const LF := "\n"
  const CRLF := "\r\n"

  predicate LineEnd(end: string) {
    end == LF || end == CRLF
  }

  /** The lines joined, each behind the line end it names; the first line end is not written. */
  function Written(lines: seq<(string, Line)>): string {
    if lines == [] then ""
    else if |lines| == 1 then lines[0].1.Text()
    else lines[0].1.Text() + lines[1].0 + Written(lines[1..])
  }

  function Payloads(lines: seq<(string, Line)>): seq<string> {
    if lines == [] then []
    else (if lines[0].1.Data? then [lines[0].1.payload] else []) + Payloads(lines[1..])
  }

  predicate AllWritable(lines: seq<(string, Line)>) {
    forall i | 0 <= i < |lines| :: lines[i].1.Writable() && LineEnd(lines[i].0)
  }

  function Texts(lines: seq<(string, Line)>): seq<string> {
    seq(|lines|, i requires 0 <= i < |lines| => lines[i].1.Text())
  }

  lemma FirstLine(line: string, end: string, rest: string)
    requires OneLine(line) && LineEnd(end)
    ensures Lines(line + end + rest) == [line] + Lines(rest)
  {
    var text := line + end + rest;
    var i := |line| + |end| - 1;
    assert text[i] == '\n' && text[i..i + 1] == "\n";
    assert At(text, "\n", i);
    forall j: nat | j < i ensures !At(text, "\n", j) {
      assert j + 1 <= |text| ==> text[j..j + 1][0] == text[j];
      assert text[j] == if j < |line| then line[j] else end[j - |line|];
    }
    assert Find(text, "\n") == Some(i);
    assert text[i + 1..] == rest;
    hide Find, At;
    assert WithoutCarriageReturn(text[..i]) == line by {
      LineWithoutReturn(line);
      if end == LF {
        assert text[..i] == line;
      } else {
        assert text[..i] == line + "\r";
      }
    }
  }

  lemma LineWithoutReturn(line: string)
    requires OneLine(line)
    ensures WithoutCarriageReturn(line + "\r") == line && WithoutCarriageReturn(line) == line
  {
    assert (line + "\r")[..|line|] == line;
  }

  lemma LastLine(line: string)
    requires OneLine(line)
    ensures Lines(line) == if line == "" then [] else [line]
  {
    forall i: nat ensures !At(line, "\n", i) {
      assert i + 1 <= |line| ==> line[i..i + 1][0] == line[i];
    }
  }

  /** What was joined with line ends is read back line by line, up to an empty last line. */
  lemma {:induction false} LinesRead(lines: seq<(string, Line)>)
    requires AllWritable(lines)
    ensures var read := Lines(Written(lines)); Texts(lines) == read || Texts(lines) == read + [""]
  {
    hide Lines;
    if lines == [] {
      LastLine("");
    } else if |lines| == 1 {
      LastLine(lines[0].1.Text());
    } else {
      var rest := lines[1..];
      LinesRead(rest);
      FirstLine(lines[0].1.Text(), lines[1].0, Written(rest));
      assert Texts(lines) == [lines[0].1.Text()] + Texts(rest);
    }
  }

  lemma {:induction false} DataOfTexts(lines: seq<(string, Line)>)
    requires AllWritable(lines)
    ensures DataOf(Texts(lines)) == Payloads(lines)
  {
    if lines != [] {
      var line, rest := lines[0].1, lines[1..];
      assert Texts(lines) == [line.Text()] + Texts(rest);
      assert ([line.Text()] + Texts(rest))[1..] == Texts(rest);
      DataOfTexts(rest);
      match line
      case Data(payload, true) =>
        assert ("data: " + payload)[..5] == "data:" && ("data: " + payload)[5..] == " " + payload;
        TrimStartOfBlank(" ", payload);
      case Data(payload, false) =>
        assert ("data:" + payload)[5..] == payload && "" + payload == payload;
        TrimStartOfBlank("", payload);
      case Other(text) =>
    }
  }

  lemma {:induction false} DataOfConcat(a: seq<string>, b: seq<string>)
    ensures DataOf(a + b) == DataOf(a) + DataOf(b)
  {
    if a == [] {
      assert a + b == b;
    } else {
      assert (a + b)[1..] == a[1..] + b && (a + b)[0] == a[0];
      DataOfConcat(a[1..], b);
    }
  }

  /** Writing and reading a frame: lines that begin with `data:` give their payloads, in order, whatever line ends
    * join them and whatever other lines stand between. */
  lemma PayloadsRead(lines: seq<(string, Line)>)
    requires AllWritable(lines)
    ensures DataLines(Written(lines)) == Payloads(lines)
  {
    LinesRead(lines);
    DataOfTexts(lines);
    hide Written, Texts, Payloads, Lines, DataOf;
    var read := Lines(Written(lines));
    DataOfConcat(read, [""]);
    EmptyLineHasNoData();
    assert DataOf(read) + [] == DataOf(read);
  }

  lemma EmptyLineHasNoData()
    ensures DataOf([""]) == []
  {
  }
}
