/** Splitting a string at a separator and joining it again, as the string methods of JavaScript do. */
module Text {

  /** text.split(separator): one piece more than there are separators. */
  function Split(text: string, separator: char): (pieces: seq<string>)
    ensures |pieces| > 0
    ensures forall i :: 0 <= i < |pieces| ==> separator !in pieces[i]
  {
    if text == "" then [""]
    else
      var rest := Split(text[1..], separator);
      if text[0] == separator then [""] + rest
      else [[text[0]] + rest[0]] + rest[1..]
  }

  /** pieces.join(separator) */
  function Join(pieces: seq<string>, separator: char): string {
    if pieces == [] then ""
    else if |pieces| == 1 then pieces[0]
    else pieces[0] + [separator] + Join(pieces[1..], separator)
  }

  lemma {:induction false} JoinSplit(text: string, separator: char)
    ensures Join(Split(text, separator), separator) == text
  {
    if text != "" {
      JoinSplit(text[1..], separator);
      var rest := Split(text[1..], separator);
      var pieces := Split(text, separator);
      if text[0] == separator {
        assert pieces[1..] == rest;
      } else if |rest| > 1 {
        assert pieces[1..] == rest[1..];
      }
    }
  }

  lemma {:induction false} SplitJoin(pieces: seq<string>, separator: char)
    requires pieces != [] && forall i :: 0 <= i < |pieces| ==> separator !in pieces[i]
    ensures Split(Join(pieces, separator), separator) == pieces
  {
    if |pieces| == 1 {
      SplitPlain(pieces[0], separator);
    } else {
      SplitJoin(pieces[1..], separator);
      SplitAt(pieces[0], Join(pieces[1..], separator), separator);
      assert pieces == [pieces[0]] + pieces[1..];
      assert pieces[0] + [separator] + Join(pieces[1..], separator) == pieces[0] + ([separator] + Join(pieces[1..], separator));
    }
  }

  lemma {:induction false} SplitPlain(text: string, separator: char)
    requires separator !in text
    ensures Split(text, separator) == [text]
  {
    if text != "" {
      SplitPlain(text[1..], separator);
      assert text[0] != separator && text == [text[0]] + text[1..];
    }
  }

  lemma {:induction false} SplitAt(head: string, tail: string, separator: char)
    requires separator !in head
    ensures Split(head + ([separator] + tail), separator) == [head] + Split(tail, separator)
  {
    var text := head + ([separator] + tail);
    if head == "" {
      assert text[1..] == tail;
    } else {
      assert text[1..] == head[1..] + ([separator] + tail);
      SplitAt(head[1..], tail, separator);
      assert text[0] == head[0] != separator;
      assert head == [head[0]] + head[1..];
      var rest := Split(text[1..], separator);
      assert rest == [head[1..]] + Split(tail, separator);
      assert rest[0] == head[1..] && rest[1..] == Split(tail, separator);
    }
  }
}
