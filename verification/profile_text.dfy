/** The length of a string as JSON text, which meets what the normaliser's size tests rely on. */
module JsonText {
  import opened ProfileItems

  /** Quotes and backslashes take two characters, and so do the control characters with a short
      escape; the other control characters take six. */
  function CharSize(c: char): nat {
    if c == '"' || c == '\\' || '\U{0008}' <= c <= '\n' || c == '\U{000C}' || c == '\r' then 2
    else if c < ' ' then 6
    else 1
  }

  function CharSizes(s: string): nat {
    if s == "" then 0 else CharSize(s[0]) + CharSizes(s[1..])
  }

  function TextSize(s: string): nat {
    CharSizes(s) + 2
  }

  lemma {:induction false} CharSizesJoin(a: string, b: string)
    ensures CharSizes(a + b) == CharSizes(a) + CharSizes(b)
  {
    if a == "" {
      assert a + b == b;
    } else {
      CharSizesJoin(a[1..], b);
      assert (a + b)[1..] == a[1..] + b;
    }
  }

  predicate IsPlain(s: string) {
    forall i | 0 <= i < |s| :: CharSize(s[i]) == 1
  }

  lemma {:induction false} PlainSize(s: string)
    requires IsPlain(s)
    ensures CharSizes(s) == |s|
  {
    if s != "" {
      PlainSize(s[1..]);
    }
  }

  lemma {:induction false} ReplacedPrefix(was: string, becomes: string, title: string)
    requires IsPlain(was) && IsPlain(becomes) && was <= title
    ensures TextSize(becomes + title[|was|..]) == TextSize(title) + |becomes| - |was|
  {
    assert title == was + title[|was|..];
    CharSizesJoin(was, title[|was|..]);
    CharSizesJoin(becomes, title[|was|..]);
    PlainSize(was);
    PlainSize(becomes);
  }

  lemma {:induction false} NamesArePlain(was: string, becomes: string)
    requires was == OLD_NAME && becomes == NEW_NAME
    ensures IsPlain(was) && IsPlain(becomes) && |becomes| - |was| == RENAME_GROWTH
  {
  }

  lemma {:induction false} OldTitleHasPrefix(was: string, title: string)
    requires was == OLD_NAME && IsOldTitle(title)
    ensures was <= title
  {
    assert OLD_PREFIX[..6] == OLD_NAME;
  }

  /** Renaming a title adds seven characters of JSON text. */
  lemma {:induction false} RenamedTextSize(title: string, was: string, becomes: string)
    requires IsOldTitle(title) && was == OLD_NAME && becomes == NEW_NAME
    ensures TextSize(RenamedTitle(title)) == TextSize(title) + RENAME_GROWTH
  {
    OldTitleHasPrefix(was, title);
    NamesArePlain(was, becomes);
    ReplacedPrefix(was, becomes, title);
    assert RenamedTitle(title) == becomes + title[|was|..];
  }

  /** The JSON text size makes the guards lawful. */
  lemma {:induction false} JsonIsLawful(safeId: string -> bool, storedUrl: string -> bool)
    requires storedUrl(NEW_TAB)
    ensures Lawful(Guards(safeId, storedUrl, TextSize))
  {
    forall title | IsOldTitle(title) ensures TextSize(RenamedTitle(title)) == TextSize(title) + RENAME_GROWTH {
      RenamedTextSize(title, OLD_NAME, NEW_NAME);
    }
  }

  // ---- The text itself ----

  const HEX: string := "0123456789abcdef"

  /** A character as it stands in JSON text: quotes, backslashes and five control characters by a short escape, the
      other control characters by their code, and any other as itself. */
  function Escaped(c: char): string {
    if c == '"' then "\\\""
    else if c == '\\' then "\\\\"
    else if c == '\U{0008}' then "\\b"
    else if c == '\t' then "\\t"
    else if c == '\n' then "\\n"
    else if c == '\U{000C}' then "\\f"
    else if c == '\r' then "\\r"
    else if c < ' ' then "\\u00" + [HEX[c as int / 16], HEX[c as int % 16]]
    else [c]
  }

  function EscapedText(s: string): string {
    if s == "" then "" else Escaped(s[0]) + EscapedText(s[1..])
  }

  lemma {:induction false} CharSizeIs(c: char)
    ensures CharSize(c) == |Escaped(c)|
  {
  }

  /** The size is the length of the quoted text. */
  lemma {:induction false} TextSizeIs(s: string)
    ensures TextSize(s) == |"\"" + EscapedText(s) + "\""|
  {
    if s != "" {
      CharSizeIs(s[0]);
      TextSizeIs(s[1..]);
    }
  }
}
