/** What the character classes of the expression for tool calls stand for. */
module ToolCharacters {
  import opened ToolScanner

  /** The letters, and the characters of \s, spelled out. */
  const SMALL := "abcdefghijklmnopqrstuvwxyz"
  const LARGE := "ABCDEFGHIJKLMNOPQRSTUVWXYZ"
  const BLANK_CHARACTERS := "\t\n\U{000B}\U{000C}\r \U{00A0}\U{1680}"
                            + "\U{2000}\U{2001}\U{2002}\U{2003}\U{2004}\U{2005}\U{2006}\U{2007}\U{2008}\U{2009}\U{200A}"
                            + "\U{2028}\U{2029}\U{202F}\U{205F}\U{3000}\U{FEFF}"

  lemma SmallSpelled(c: char)
    ensures 'a' <= c <= 'z' <==> c in SMALL
  {
    if 'a' <= c <= 'z' { assert SMALL[(c - 'a') as int] == c; }
  }

  lemma LargeSpelled(c: char)
    ensures 'A' <= c <= 'Z' <==> c in LARGE
  {
    if 'A' <= c <= 'Z' { assert LARGE[(c - 'A') as int] == c; }
  }

  lemma WordsSpelled(c: char)
    ensures IsWord(c) <==> c in SMALL || c in LARGE || c in "0123456789_"
  {
    SmallSpelled(c);
    LargeSpelled(c);
  }

  lemma BlanksSpelled(c: char)
    ensures IsBlank(c) <==> c in BLANK_CHARACTERS
  {
  }
}
