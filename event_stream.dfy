/**
 * The client side of the event-stream format (WHATWG HTML Living Standard,
 * section 9.2.6 "Interpreting an event stream"), reduced to what decides
 * which messages a client receives: line splitting on CRLF, LF or CR,
 * comment lines, the `data` field and dispatch on a blank line. The `event`,
 * `id` and `retry` fields, the leading byte-order mark and the event-type
 * buffer play no part in the frames this server writes and are not modelled.
 */
module EventStream {
  import opened Wrappers

  /** The parser between two characters: the unfinished line, the data buffer, and the messages dispatched so far. */
  datatype State = State(line: string, data: string, afterCR: bool, dispatched: seq<string>)

  const Initial: State := State("", "", false, [])

  predicate NoLineBreak(s: string) {
    forall i :: 0 <= i < |s| ==> s[i] != '\n' && s[i] != '\r'
  }

  /** The index of the first ':' of a line, if any. */
  function ColonIndex(line: string): (r: Option<nat>)
    ensures r.Some? ==> r.value < |line| && line[r.value] == ':'
    ensures r.Some? ==> forall j :: 0 <= j < r.value ==> line[j] != ':'
    ensures r.None? ==> forall j :: 0 <= j < |line| ==> line[j] != ':'
  {
    if line == [] then None
    else if line[0] == ':' then Some(0)
    else match ColonIndex(line[1..])
      case None => None
      case Some(i) => Some(i + 1)
  }

  /** Field name and value of a non-comment line; one space after the colon is dropped. */
  function FieldOf(line: string): (string, string) {
    match ColonIndex(line)
    case None => (line, "")
    case Some(i) =>
      var value := line[i + 1..];
      (line[..i], if |value| > 0 && value[0] == ' ' then value[1..] else value)
  }

  /** Processing one complete line. */
  function ProcessLine(st: State, line: string): State {
    if line == "" then
      if st.data == "" then st
      else
        var d := st.data;
        var payload := if d[|d| - 1] == '\n' then d[..|d| - 1] else d;
        st.(data := "", dispatched := st.dispatched + [payload])
    else if line[0] == ':' then st
    else
      var (name, value) := FieldOf(line);
      if name == "data" then st.(data := st.data + value + "\n") else st
  }

  /** One character of the stream; a LF right after a CR ends no further line. */
  function Feed(st: State, c: char): State {
    if c == '\n' && st.afterCR then st.(afterCR := false)
    else if c == '\n' || c == '\r' then ProcessLine(st.(line := ""), st.line).(afterCR := c == '\r')
    else st.(line := st.line + [c], afterCR := false)
  }

  /** The parser after reading `s`. */
  function Parse(st: State, s: string): State
    decreases |s|
  {
    if s == [] then st else Parse(Feed(st, s[0]), s[1..])
  }

  /** Reading a stream in two pieces is reading it whole. */
  lemma {:induction false} ParseAppend(st: State, a: string, b: string)
    ensures Parse(st, a + b) == Parse(Parse(st, a), b)
    decreases |a|
  {
    if a != [] {
      assert (a + b)[0] == a[0];
      assert (a + b)[1..] == a[1..] + b;
      ParseAppend(Feed(st, a[0]), a[1..], b);
    } else {
      assert a + b == b;
    }
  }

  /** Text without line breaks only extends the unfinished line. */
  lemma {:induction false} ParseWithinLine(st: State, s: string)
    requires s != [] && NoLineBreak(s)
    ensures Parse(st, s) == st.(line := st.line + s, afterCR := false)
    decreases |s|
  {
    var next := Feed(st, s[0]);
    assert next == st.(line := st.line + [s[0]], afterCR := false);
    if |s| == 1 {
      assert Parse(next, s[1..]) == next;
      assert st.line + [s[0]] == st.line + s;
    } else {
      ParseWithinLine(next, s[1..]);
      assert next.line + s[1..] == st.line + s;
    }
  }

  /** The first colon of a line that starts with a colon-free prefix lies after that prefix. */
  lemma {:induction false} ColonAfterPrefix(prefix: string, rest: string)
    requires forall j :: 0 <= j < |prefix| ==> prefix[j] != ':'
    ensures ColonIndex(prefix + rest) ==
            (match ColonIndex(rest) case None => None case Some(i) => Some(i + |prefix|))
    decreases |prefix|
  {
    if prefix != [] {
      assert (prefix + rest)[1..] == prefix[1..] + rest;
      assert (prefix + rest)[0] == prefix[0];
      ColonAfterPrefix(prefix[1..], rest);
    } else {
      assert prefix + rest == rest;
    }
  }
}
