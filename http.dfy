/**
 * What the handlers answer besides their JSON bodies: plain-text errors and
 * the server-sent-events framing of the streaming endpoints.
 */
module Http {
  import opened Wrappers

  /** A plain-text error reply written with `http.Error`. */
  datatype HttpError = HttpError(status: int, message: string)

  /** One event on the wire: a `data: ` line holding the payload, then a blank line. */
  function SseFrame(payload: string): string
  {
    "data: " + payload + "\n\n"
  }

  /** The frames of all payloads, in order. */
  function EventStream(payloads: seq<string>): string
  {
    if payloads == [] then "" else SseFrame(payloads[0]) + EventStream(payloads[1..])
  }

  /** A payload that fits on one line: no line feed and no carriage return. */
  predicate NoLineBreak(p: string)
  {
    forall i :: 0 <= i < |p| ==> p[i] != '\n' && p[i] != '\r'
  }

  /** The text before the first `c` of `s` and the text after it; None when `s` holds no `c`. */
  function SplitAt(s: string, c: char): (r: Option<(string, string)>)
    ensures r.Some? ==> s == r.value.0 + [c] + r.value.1 && c !in r.value.0
    ensures r.None? <==> c !in s
  {
    if s == [] then None
    else if s[0] == c then
      assert s == [] + [c] + s[1..];
      Some(([], s[1..]))
    else match SplitAt(s[1..], c)
      case None => None
      case Some((before, after)) =>
        assert s == [s[0]] + s[1..];
        Some(([s[0]] + before, after))
  }

  /**
   * The data of the events an event-stream reader dispatches for the lines
   * of `s` that end in a line feed, with `buf` the data buffered so far, as
   * section 9.2.5 ("Parsing an event stream") of the WHATWG HTML Living
   * Standard processes them: a blank line dispatches the buffer (without its
   * last line feed) unless it is empty, a line opening with `:` is a
   * comment, otherwise the field name runs up to the first `:` and one space
   * after it is dropped from the value; a `data` value is buffered followed
   * by a line feed, and other fields carry no data.
   */
  function ReadData(s: string, buf: string): seq<string>
    decreases |s|
  {
    match SplitAt(s, '\n')
    case None => []
    case Some((line, rest)) =>
      if line == [] then
        (if buf == [] then [] else [buf[..|buf| - 1]]) + ReadData(rest, [])
      else if line[0] == ':' then ReadData(rest, buf)
      else
        var field := Field(line);
        ReadData(rest, if field.0 == "data" then buf + field.1 + "\n" else buf)
  }

  /** A line's field name (up to its first `:`) and value (after it, less one leading space). */
  function Field(line: string): (string, string)
  {
    match SplitAt(line, ':')
    case Some((name, value)) => (name, if value != [] && value[0] == ' ' then value[1..] else value)
    case None => (line, [])
  }

  /** The data of every event a client reads from `s`. */
  function ReadEvents(s: string): seq<string>
  {
    ReadData(s, [])
  }

  /** The first `c` of a text is found, whatever follows it. */
  lemma {:induction false} SplitAtFirst(a: string, c: char, b: string)
    requires c !in a
    ensures SplitAt(a + [c] + b, c) == Some((a, b))
    decreases |a|
  {
    if a == [] {
      assert (a + [c] + b)[1..] == b;
    } else {
      assert (a + [c] + b)[1..] == a[1..] + [c] + b;
      SplitAtFirst(a[1..], c, b);
      assert [a[0]] + a[1..] == a;
    }
  }

  /** A `data: ` line of a one-line payload buffers the payload and a line feed. */
  lemma DataLine(p: string, rest: string)
    requires NoLineBreak(p)
    ensures ReadData("data: " + p + "\n" + rest, []) == ReadData(rest, p + "\n")
  {
    var line := "data: " + p;
    DataLineField(p);
    assert '\n' !in line by {
      forall i | 0 <= i < |line|
        ensures line[i] != '\n'
      {
        if i >= 6 {
          assert line[i] == p[i - 6];
        }
      }
    }
    SplitAtFirst(line, '\n', rest);
    var s := line + ['\n'] + rest;
    assert s == "data: " + p + "\n" + rest;
    assert SplitAt(s, '\n') == Some((line, rest));
    assert line != [] && line[0] != ':';
    assert ReadData(s, []) == ReadData(rest, [] + p + "\n");
    assert [] + p + "\n" == p + "\n";
  }

  /** The field of a `data: ` line is `data` and its value the payload. */
  lemma DataLineField(p: string)
    ensures Field("data: " + p) == ("data", p)
  {
    assert "data: " + p == "data" + [':'] + (" " + p);
    SplitAtFirst("data", ':', " " + p);
  }

  /** A blank line dispatches what is buffered, without its last line feed. */
  lemma BlankLine(p: string, rest: string)
    ensures ReadData("\n" + rest, p + "\n") == [p] + ReadData(rest, [])
  {
    SplitAtFirst([], '\n', rest);
    assert [] + ['\n'] + rest == "\n" + rest;
    assert (p + "\n")[..|p|] == p;
  }

  /** A client reads one frame of a one-line payload as one event carrying it. */
  lemma ReadFrame(p: string, tail: string)
    requires NoLineBreak(p)
    ensures ReadData(SseFrame(p) + tail, []) == [p] + ReadData(tail, [])
  {
    assert SseFrame(p) + tail == "data: " + p + "\n" + ("\n" + tail);
    DataLine(p, "\n" + tail);
    BlankLine(p, tail);
  }

  /**
   * A client reading the frames of one-line payloads gets back exactly
   * those payloads, in order, one event each (an empty payload included).
   */
  lemma {:induction false} ReadEventsOfStream(payloads: seq<string>)
    requires forall i :: 0 <= i < |payloads| ==> NoLineBreak(payloads[i])
    ensures ReadEvents(EventStream(payloads)) == payloads
    decreases |payloads|
  {
    if payloads != [] {
      ReadFrame(payloads[0], EventStream(payloads[1..]));
      ReadEventsOfStream(payloads[1..]);
    }
  }
}
