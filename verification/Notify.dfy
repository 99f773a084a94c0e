/** The toast document: text escaped into XML, and read back out of it. */
module Notify {
  import opened Common

  // ---- escaping ---------------------------------------------------------------------

  const ENTITIES: seq<(string, char)> :=
    [("&amp;", '&'), ("&lt;", '<'), ("&gt;", '>'), ("&quot;", '"'), ("&apos;", '\'')]

  function EscapedChar(c: char): string {
    match c
    case '&' => "&amp;"
    case '<' => "&lt;"
    case '>' => "&gt;"
    case '"' => "&quot;"
    case '\'' => "&apos;"
    case _ => [c]
  }

  function Escaped(text: string): string {
    if text == "" then "" else EscapedChar(text[0]) + Escaped(text[1..])
  }

  lemma EscapedAt(escaped: string, text: string, i: nat)
    requires i < |text|
    ensures escaped + Escaped(text[i..]) == escaped + EscapedChar(text[i]) + Escaped(text[i + 1..])
  {
    assert text[i..][1..] == text[i + 1..];
  }

  method XmlEscape(text: string) returns (escaped: string)
    ensures escaped == Escaped(text)
  {
    hide Escaped;
    escaped := "";
    for i := 0 to |text|
      invariant escaped + Escaped(text[i..]) == Escaped(text)
    {
      EscapedAt(escaped, text, i);
      match text[i] {
        case '&' => escaped := escaped + "&amp;";
        case '<' => escaped := escaped + "&lt;";
        case '>' => escaped := escaped + "&gt;";
        case '"' => escaped := escaped + "&quot;";
        case '\'' => escaped := escaped + "&apos;";
        case other => escaped := escaped + [other];
      }
    }
    assert text[|text|..] == "";
    NothingEscaped();
  }

  lemma NothingEscaped()
    ensures Escaped("") == ""
  {
  }

  // ---- reading it back -----------------------------------------------------------------

  /** The predefined entity `s` starts with, by its place in the list. */
  function EntityAt(s: string, from: nat): (k: nat)
    requires from <= |ENTITIES|
    ensures from <= k <= |ENTITIES|
    ensures k < |ENTITIES| ==> ENTITIES[k].0 <= s
    decreases |ENTITIES| - from
  {
    if from == |ENTITIES| || ENTITIES[from].0 <= s then from else EntityAt(s, from + 1)
  }

  /** Character data and predefined entity references, as section 2.4 and
      section 4.6 of XML 1.0 read them: markup, and any other reference, is an
      error. */
  function Unescaped(s: string): Option<string>
    decreases |s|
  {
    if s == "" then Some("")
    else if s[0] == '<' then None
    else if s[0] == '&' then
      var k := EntityAt(s, 0);
      if k == |ENTITIES| then None
      else
        assert |ENTITIES[k].0| > 0;
        Prefixed(ENTITIES[k].1, Unescaped(s[|ENTITIES[k].0|..]))
    else Prefixed(s[0], Unescaped(s[1..]))
  }

  function Prefixed(c: char, text: Option<string>): Option<string> {
    if text.None? then None else Some([c] + text.value)
  }

  lemma EscapedCharIsRead(c: char, rest: string)
    ensures Unescaped(EscapedChar(c) + rest) == Prefixed(c, Unescaped(rest))
  {
    var s := EscapedChar(c) + rest;
    assert s[|EscapedChar(c)|..] == rest;
    if |EscapedChar(c)| > 1 {
      assert s[1] == EscapedChar(c)[1] && s[2] == EscapedChar(c)[2];
      assert s[..|EscapedChar(c)|] == EscapedChar(c);
      assert EntityAt(s, 5) == 5;
    }
  }

  /** Decoding the five predefined entities undoes the escaping of any text. */
  lemma {:induction false} EscapingIsUndone(text: string)
    ensures Unescaped(Escaped(text)) == Some(text)
  {
    if text != "" {
      EscapedCharIsRead(text[0], Escaped(text[1..]));
      EscapingIsUndone(text[1..]);
      assert [text[0]] + text[1..] == text;
    }
  }

  /** No markup, no quote, and every `&` begins a predefined entity. */
  predicate IsClean(s: string) {
    && (forall i :: 0 <= i < |s| ==> s[i] !in {'<', '>', '"', '\''})
    && (forall i :: 0 <= i < |s| && s[i] == '&' ==> exists k :: 0 <= k < |ENTITIES| && ENTITIES[k].0 <= s[i..])
  }

  lemma EscapedCharIsClean(c: char)
    ensures forall i :: 0 <= i < |EscapedChar(c)| ==> EscapedChar(c)[i] !in {'<', '>', '"', '\''}
    ensures forall i :: 0 < i < |EscapedChar(c)| ==> EscapedChar(c)[i] != '&'
    ensures EscapedChar(c) != ""
  {
  }

  lemma CleanFirst(c: char, rest: string)
    requires IsClean(rest)
    ensures IsClean(EscapedChar(c) + rest)
  {
    hide EscapedChar;
    EscapedCharIsClean(c);
    var first := EscapedChar(c);
    var s := first + rest;
    forall i | 0 <= i < |s| && s[i] == '&'
      ensures exists k :: 0 <= k < |ENTITIES| && ENTITIES[k].0 <= s[i..]
    {
      if i < |first| {
        assert i == 0 && s[0..] == s;
        EscapedAmpersand(c, rest);
      } else {
        assert s[i..] == rest[i - |first|..];
      }
    }
  }

  lemma EscapedAmpersand(c: char, rest: string)
    requires EscapedChar(c)[0] == '&'
    ensures exists k :: 0 <= k < |ENTITIES| && ENTITIES[k].0 <= EscapedChar(c) + rest
  {
    var k := if c == '&' then 0 else if c == '<' then 1 else if c == '>' then 2 else if c == '"' then 3 else 4;
    assert ENTITIES[k].0 <= EscapedChar(c) + rest;
  }

  lemma {:induction false} EscapedIsClean(text: string)
    ensures IsClean(Escaped(text))
  {
    if text != "" {
      EscapedIsClean(text[1..]);
      CleanFirst(text[0], Escaped(text[1..]));
    }
  }

  // ---- the toast ---------------------------------------------------------------------------

  const OPENING: string := "<toast>" + "<visual>" + "<binding template=\"ToastGeneric\">" + "<text>"
  const BETWEEN: string := "</text>" + "<text>"
  const CLOSING: string := "</text>" + "</binding>" + "</visual>" + "</toast>"

  function ToastXml(title: string, body: string): string {
    OPENING + (Escaped(title) + (BETWEEN + (Escaped(body) + CLOSING)))
  }

  function UntilMarkup(s: string): (n: nat)
    ensures n <= |s| && '<' !in s[..n] && (n < |s| ==> s[n] == '<')
  {
    if s == "" || s[0] == '<' then 0
    else
      var n := 1 + UntilMarkup(s[1..]);
      assert s[..n] == [s[0]] + s[1..][..n - 1];
      n
  }

  /** What follows these tags, when the text starts with them. */
  function Past(s: string, tags: seq<string>): Option<string> {
    if tags == [] then Some(s)
    else if tags[0] <= s then Past(s[|tags[0]|..], tags[1..])
    else None
  }

  /** The character data up to the next tag, and the rest. */
  function TextThen(s: string): Option<(string, string)> {
    var n := UntilMarkup(s);
    var text := Unescaped(s[..n]);
    if text.None? then None else Some((text.value, s[n..]))
  }

  /** The two texts of a toast, or nothing when the document is not one: a binding
      of two texts in a visual in a toast. */
  function ReadToast(xml: string): Option<(string, string)> {
    var inside := Past(xml, ["<toast>", "<visual>", "<binding template=\"ToastGeneric\">", "<text>"]);
    if inside.None? then None
    else
      var title := TextThen(inside.value);
      if title.None? then None
      else
        var second := Past(title.value.1, ["</text>", "<text>"]);
        if second.None? then None
        else
          var body := TextThen(second.value);
          if body.None? then None
          else if Past(body.value.1, ["</text>", "</binding>", "</visual>", "</toast>"]) == Some("") then
            Some((title.value.0, body.value.0))
          else None
  }

  lemma PastOne(tag: string, tags: seq<string>, rest: string)
    ensures Past(tag + rest, [tag] + tags) == Past(rest, tags)
  {
    assert (tag + rest)[|tag|..] == rest && ([tag] + tags)[1..] == tags;
  }

  lemma PastNone(rest: string)
    ensures Past(rest, []) == Some(rest)
  {
  }

  lemma PastTwo(a: string, b: string, rest: string)
    ensures Past(a + b + rest, [a, b]) == Some(rest)
  {
    hide Past;
    assert a + b + rest == a + (b + rest) && [a, b] == [a] + [b] && [b] == [b] + [];
    PastOne(a, [b], b + rest);
    PastOne(b, [], rest);
    PastNone(rest);
  }

  lemma PastFour(a: string, b: string, c: string, d: string, rest: string)
    ensures Past(a + b + c + d + rest, [a, b, c, d]) == Some(rest)
  {
    hide Past;
    assert a + b + c + d + rest == a + (b + (c + d + rest)) && [a, b, c, d] == [a] + [b, c, d];
    assert [b, c, d] == [b] + [c, d];
    PastOne(a, [b, c, d], b + (c + d + rest));
    PastOne(b, [c, d], c + d + rest);
    PastTwo(c, d, rest);
  }

  lemma {:induction false} MarkupComesAfter(text: string, markup: string)
    requires '<' !in text && markup != "" && markup[0] == '<'
    ensures UntilMarkup(text + markup) == |text|
  {
    if text == "" {
      assert text + markup == markup;
    } else {
      assert (text + markup)[1..] == text[1..] + markup;
      MarkupComesAfter(text[1..], markup);
    }
  }

  lemma TextIsRead(text: string, markup: string)
    requires markup != "" && markup[0] == '<'
    ensures TextThen(Escaped(text) + markup) == Some((text, markup))
  {
    hide Escaped, Unescaped, UntilMarkup;
    EscapedIsClean(text);
    EscapingIsUndone(text);
    MarkupComesAfter(Escaped(text), markup);
    assert (Escaped(text) + markup)[..|Escaped(text)|] == Escaped(text);
  }

  lemma MarkupStarts(rest: string)
    ensures (BETWEEN + rest)[0] == '<' && CLOSING[0] == '<' && CLOSING + "" == CLOSING
  {
  }

  /** A toast reads back as the title and the body it was made from: nothing in
      either is markup. */
  lemma ToastIsRead(title: string, body: string)
    ensures ReadToast(ToastXml(title, body)) == Some((title, body))
  {
    hide Escaped, TextThen, Past;
    var last := Escaped(body) + CLOSING;
    var first := Escaped(title) + (BETWEEN + last);
    MarkupStarts(last);
    PastFour("<toast>", "<visual>", "<binding template=\"ToastGeneric\">", "<text>", first);
    TextIsRead(title, BETWEEN + last);
    PastTwo("</text>", "<text>", last);
    TextIsRead(body, CLOSING);
    PastFour("</text>", "</binding>", "</visual>", "</toast>", "");
  }

  /** Two toasts are the same document only when they say the same. */
  lemma ToastIsInjective(title: string, body: string, otherTitle: string, otherBody: string)
    requires ToastXml(title, body) == ToastXml(otherTitle, otherBody)
    ensures title == otherTitle && body == otherBody
  {
    hide ToastXml, ReadToast;
    ToastIsRead(title, body);
    ToastIsRead(otherTitle, otherBody);
  }
}
