/**
 * The client side of the search service: the request text `search` sends
 * and the list of names `parseResponse` makes of the reply. The socket is
 * left out; the reply is a parameter.
 */
module FileExplorer {
  import opened Text

  /** `'SEARCH {}'.format(info)`: the query after `SEARCH` and one space. */
  function SearchRequest(info: string): (request: string)
    ensures |request| == 7 + |info|
    ensures request[..7] == "SEARCH " && request[7..] == info
  {
    "SEARCH " + info
  }

  /**
   * `parseResponse`: every line of the reply after the first. There are
   * as many as the reply has line breaks, none holds a line break, and
   * put back together after the first line they give the reply again.
   */
  function ParseResponse(response: string): (lines: seq<string>)
    ensures |lines| == Count(response, '\n')
    ensures forall i :: 0 <= i < |lines| ==> '\n' !in lines[i]
    ensures Join([Split(response, '\n')[0]] + lines, '\n') == response
  {
    SplitCount(response, '\n');
    SplitJoin(response, '\n');
    var parts := Split(response, '\n');
    assert parts == [parts[0]] + parts[1..];
    parts[1..]
  }

  /**
   * The lines after a first line are read back exactly, whatever the
   * first line says, as long as no line holds a line break.
   */
  lemma ParseResponseJoin(first: string, lines: seq<string>)
    requires '\n' !in first
    requires |lines| >= 1
    requires forall i :: 0 <= i < |lines| ==> '\n' !in lines[i]
    ensures ParseResponse(first + "\n" + Join(lines, '\n')) == lines
  {
    assert first + "\n" + Join(lines, '\n') == first + ['\n'] + Join(lines, '\n');
    SplitAt(first, Join(lines, '\n'), '\n');
    JoinSplit(lines, '\n');
  }

  /** A reply with no line break past its first line lists nothing. */
  lemma ParseResponseSingleLine(response: string)
    requires '\n' !in response
    ensures ParseResponse(response) == []
  {
    SplitNone(response, '\n');
  }
}
