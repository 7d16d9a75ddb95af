// Recovering the raw LLM text from a parser error message.
module Utils {
  import opened Wrappers
  import opened Strings

  const ParseErrorMarker := "Could not parse LLM output: "

  /** `get_unparsed_output`. */
  function GetUnparsedOutput(message: string): (r: string)
    ensures !Contains(message, ParseErrorMarker) ==> r == message
    ensures Contains(message, ParseErrorMarker) ==>
              var rest := message[IndexOf(message, ParseErrorMarker).value + |ParseErrorMarker|..];
              var segment := match IndexOf(rest, ParseErrorMarker) case Some(j) => rest[..j] case None => rest;
              r == StripChar(segment, '`')
    ensures Contains(message, ParseErrorMarker) ==> !Contains(r, ParseErrorMarker)
  {
    var parts := Split(message, ParseErrorMarker);
    if |parts| > 1 then
      SplitSecondPiece(message, ParseErrorMarker);
      SplitPiecesAvoidSeparator(message, ParseErrorMarker, 1);
      StrippedKeepsAbsence(parts[1], '`', ParseErrorMarker);
      StripChar(parts[1], '`')
    else
      SplitCount(message, ParseErrorMarker);
      message
  }

  lemma SplitCount(s: string, sep: string)
    requires |sep| > 0
    ensures |Split(s, sep)| > 1 <==> Contains(s, sep)
  {
  }

  lemma SplitSecondPiece(s: string, sep: string)
    requires |sep| > 0 && Contains(s, sep)
    ensures |Split(s, sep)| > 1
    ensures var rest := s[IndexOf(s, sep).value + |sep|..];
            Split(s, sep)[1] == match IndexOf(rest, sep) case Some(j) => rest[..j] case None => rest
  {
  }

  /** Stripping characters from the ends cannot create an occurrence. */
  lemma StrippedKeepsAbsence(s: string, c: char, p: string)
    requires !Contains(s, p)
    ensures !Contains(StripChar(s, c), p)
  {
    var a, b := TrimIsMiddle(s, CharIs(c));
    SliceKeepsAbsence(s, p, a, b);
  }

  /** The last piece of a split around a present separator follows a separator and holds none. */
  lemma {:induction false} LastPieceFollowsSeparator(s: string, sep: string)
    requires |sep| > 0 && Contains(s, sep)
    ensures var pieces := Split(s, sep);
            EndsWith(s, sep + pieces[|pieces| - 1]) && !Contains(pieces[|pieces| - 1], sep)
  {
    var pieces := Split(s, sep);
    SplitCount(s, sep);
    SplitPiecesAvoidSeparator(s, sep, |pieces| - 1);
    JoinSplit(s, sep);
    JoinLast(sep, pieces);
  }

  /** A join of two or more parts ends with the separator and the last part. */
  lemma JoinLast(sep: string, parts: seq<string>)
    requires |parts| > 1
    ensures EndsWith(Join(sep, parts), sep + parts[|parts| - 1])
  {
    var front := parts[..|parts| - 1];
    var last := parts[|parts| - 1];
    assert parts == front + [last];
    JoinAppend(sep, front, [last]);
    assert Join(sep, parts) == Join(sep, front) + (sep + last);
  }
}
