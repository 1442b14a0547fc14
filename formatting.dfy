/**
 `ConvertHTMLToWAStyle`: converts the small HTML subset produced by a
 rich-text editor into WhatsApp's plain-text styling (`*bold*`, `_italic_`,
 `~strike~`, newlines) in one left-to-right pass.

 The scanner keeps three variables (`tagStarted`, `closingTag`, `tag`). `Step`
 is one iteration of its loop, `Scan` runs it over the rest of the input and
 `Translate` is the whole conversion; `ConvertHTMLToWAStyle` is the loop itself
 and is proved to compute `Translate`. `Render` is an independent reading of
 the same behaviour that consumes a whole tag at once.
 */
module Formatting {

  datatype Option<T> = None | Some(value: T)

  /** The zero-width no-break space (byte-order mark) left behind by the editor. */
  const Bom: char := '\U{FEFF}'

  /** The characters the scan never copies to the output. */
  predicate Dropped(c: char)
  {
    c == '<' || c == '>' || c == Bom
  }

  /** Text without any `<`, `>` or zero-width no-break space. */
  predicate PlainText(s: string)
  {
    forall i :: 0 <= i < |s| ==> !Dropped(s[i])
  }

  /** The scanner's state: inside `<...>`, a `/` seen inside it, the characters collected. */
  datatype ScanState = ScanState(tagStarted: bool, closingTag: bool, tag: string)

  /** The state at the start of the input and after every `>`. */
  const Initial: ScanState := ScanState(false, false, "")

  /**
   What the `>` ending a tag writes, given the collected tag, whether a `/` was
   seen inside the tag, and whether any input follows that `>`.
   */
  function Emission(tag: string, closingTag: bool, more: bool): (r: string)
    ensures |r| <= 1
    ensures '<' !in r && '>' !in r && Bom !in r
    ensures r != [] <==> tag in {"em", "strong", "s", "br"} || (tag == "p" && closingTag && more)
  {
    if tag == "em" then "_"
    else if tag == "strong" then "*"
    else if tag == "s" then "~"
    else if tag == "p" then (if closingTag && more then "\n" else "")
    else if tag == "br" then "\n"
    else ""
  }

  /**
   One iteration of the scan: the character `c`, with `more` telling whether
   another character follows it. Returns the next state and what is written.
   */
  function Step(st: ScanState, c: char, more: bool): (r: (ScanState, string))
    ensures |r.1| <= 1
    ensures '<' !in r.1 && '>' !in r.1 && Bom !in r.1
    ensures c == '>' ==> r.0 == Initial
    ensures c != '>' ==> r.0.tagStarted == (st.tagStarted || c == '<')
    ensures st.tagStarted && c != '>' ==> r.1 == []
    ensures !st.tagStarted && !Dropped(c) ==> r == (st, [c])
  {
    if c == '<' then
      (st.(tagStarted := true), "")
    else if c == '>' then
      (Initial, Emission(st.tag, st.closingTag, more))
    else if c == '/' then
      if !st.tagStarted then (st, "/") else (st.(closingTag := true), "")
    else if st.tagStarted then
      (st.(tag := st.tag + [c]), "")
    else if c != Bom then
      (st, [c])
    else
      (st, "")
  }

  /** The output of scanning `rest`, the suffix of the input still to be read, from state `st`. */
  function Scan(st: ScanState, rest: string): string
    decreases |rest|
  {
    if rest == [] then []
    else
      var next := Step(st, rest[0], |rest| > 1);
      next.1 + Scan(next.0, rest[1..])
  }

  /** The whole conversion. */
  function Translate(input: string): (r: string)
    ensures |r| <= |input|
    ensures '<' !in r && '>' !in r && Bom !in r
  {
    ScanBounds(Initial, input);
    Scan(Initial, input)
  }

  /**
   Each character read writes at most one character, and neither `<`, `>` nor a
   zero-width no-break space is ever written.
   */
  lemma {:induction false} ScanBounds(st: ScanState, rest: string)
    ensures |Scan(st, rest)| <= |rest|
    ensures '<' !in Scan(st, rest) && '>' !in Scan(st, rest) && Bom !in Scan(st, rest)
    decreases |rest|
  {
    if rest != [] {
      var next := Step(st, rest[0], |rest| > 1);
      ScanBounds(next.0, rest[1..]);
    }
  }

  /** The scan as a loop over the input with three mutable variables and an appended output. */
  method ConvertHTMLToWAStyle(input: string) returns (output: string)
    ensures output == Translate(input)
  {
    output := "";
    var tagStarted, closingTag, tag := false, false, "";
    for index := 0 to |input|
      invariant output + Scan(ScanState(tagStarted, closingTag, tag), input[index..]) == Translate(input)
    {
      ghost var st := ScanState(tagStarted, closingTag, tag);
      ghost var before := output;
      assert input[index..] == [input[index]] + input[index + 1..];
      var c := input[index];
      ghost var more := input[index + 1..] != [];
      assert more == (index + 1 < |input|);
      ghost var next := Step(st, c, more);
      if c == '<' {
        tagStarted := true;
      } else if c == '>' {
        if tag == "em" {
          output := output + "_";
        } else if tag == "strong" {
          output := output + "*";
        } else if tag == "s" {
          output := output + "~";
        } else if tag == "p" {
          if closingTag && index + 1 < |input| {
            output := output + "\n";
          }
        } else if tag == "br" {
          output := output + "\n";
        }
        tag := "";
        tagStarted := false;
        closingTag := false;
      } else if c == '/' {
        if !tagStarted {
          output := output + [c];
        } else {
          closingTag := true;
        }
      } else {
        if tagStarted {
          tag := tag + [c];
        } else if c != Bom {
          output := output + [c];
        }
      }
      assert ScanState(tagStarted, closingTag, tag) == next.0;
      assert output == before + next.1;
      ScanCons(st, c, input[index + 1..]);
      ConcatAssoc(before, next.1, Scan(next.0, input[index + 1..]));
    }
    assert input[|input|..] == [];
  }

  /** The text characters of `u`, with every zero-width no-break space removed. */
  function DropBom(u: string): (r: string)
    ensures |r| <= |u| && Bom !in r
  {
    if u == [] then []
    else (if u[0] == Bom then [] else [u[0]]) + DropBom(u[1..])
  }

  /** The tag name collected from the characters between `<` and `>`: all of them but `<` and `/`. */
  function TagName(u: string): (r: string)
    ensures |r| <= |u| && '<' !in r && '/' !in r
  {
    if u == [] then []
    else (if u[0] == '<' || u[0] == '/' then [] else [u[0]]) + TagName(u[1..])
  }

  /** The position of the first `c` in `s`, if there is one. */
  function IndexOf(s: string, c: char): (r: Option<nat>)
    ensures r.None? <==> c !in s
    ensures r.Some? ==> r.value < |s| && s[r.value] == c && c !in s[..r.value]
  {
    if s == [] then None
    else if s[0] == c then Some(0)
    else
      match IndexOf(s[1..], c)
      case None => None
      case Some(j) => assert s[1..][..j] == s[1..j + 1]; Some(j + 1)
  }

  /**
   An independent reading of the conversion that takes a tag `<...>` as one
   unit: text is copied without zero-width no-break spaces, a stray `>` is
   dropped, a complete tag writes its `Emission`, and an unterminated tag
   swallows the rest of the input.
   */
  function Render(s: string): (r: string)
    ensures |r| <= |s|
    ensures '<' !in r && '>' !in r && Bom !in r
    decreases |s|
  {
    if s == [] then []
    else if s[0] == '>' then Render(s[1..])
    else if s[0] == '<' then
      var t := s[1..];
      match IndexOf(t, '>')
      case None => []
      case Some(j) => Emission(TagName(t[..j]), '/' in t[..j], j + 1 < |t|) + Render(t[j + 1..])
    else DropBom([s[0]]) + Render(s[1..])
  }

  /** Unfolding `Scan` by one character. */
  lemma {:induction false} ScanCons(st: ScanState, c: char, rest: string)
    ensures Scan(st, [c] + rest) == Step(st, c, rest != []).1 + Scan(Step(st, c, rest != []).0, rest)
  {
    assert ([c] + rest)[1..] == rest;
  }

  /** Outside a tag, text without `<` and `>` is copied with only its zero-width no-break spaces removed. */
  lemma {:induction false} ScanText(st: ScanState, u: string, rest: string)
    requires !st.tagStarted
    requires '<' !in u && '>' !in u
    ensures Scan(st, u + rest) == DropBom(u) + Scan(st, rest)
    decreases |u|
  {
    if u == [] {
      assert u + rest == rest;
    } else {
      var c, tail := u[0], u[1..];
      NotInTail(u, '<');
      NotInTail(u, '>');
      SplitFirst(u, rest);
      ScanCons(st, c, tail + rest);
      ScanText(st, tail, rest);
      var written := if c == Bom then [] else [c];
      assert Step(st, c, tail + rest != []) == (st, written);
      assert DropBom(u) == written + DropBom(tail);
      ConcatAssoc(written, DropBom(tail), Scan(st, rest));
    }
  }

  /** A character missing from a non-empty string is missing from its tail and is not its head. */
  lemma NotInTail(u: string, x: char)
    requires u != [] && x !in u
    ensures u[0] != x && x !in u[1..]
  {
    assert u == [u[0]] + u[1..];
  }

  /** A non-empty string followed by more is its head followed by the rest. */
  lemma SplitFirst(u: string, rest: string)
    requires u != []
    ensures u + rest == [u[0]] + (u[1..] + rest)
  {
    assert u == [u[0]] + u[1..];
    ConcatAssoc([u[0]], u[1..], rest);
  }

  /**
   Inside a tag, everything up to the next `>` is collected and nothing is
   written; at that `>` the tag's emission is written and the scan restarts
   from the initial state.
   */
  lemma {:induction false} ScanTag(closingTag: bool, tag: string, u: string, rest: string)
    requires '>' !in u
    ensures Scan(ScanState(true, closingTag, tag), u + ['>'] + rest)
      == Emission(tag + TagName(u), closingTag || '/' in u, rest != []) + Scan(Initial, rest)
    decreases |u|
  {
    var st := ScanState(true, closingTag, tag);
    if u == [] {
      assert u + ['>'] + rest == ['>'] + rest;
      ScanCons(st, '>', rest);
      assert tag + TagName(u) == tag;
    } else {
      var c, tail := u[0], u[1..];
      assert '>' !in tail by {
        assert forall i :: 0 <= i < |tail| ==> tail[i] == u[i + 1];
      }
      var after := tail + ['>'] + rest;
      var closing', tag' := closingTag || c == '/', tag + TagName([c]);
      calc {
        Scan(st, u + ['>'] + rest);
        { assert u + ['>'] + rest == [c] + after; }
        Scan(st, [c] + after);
        { ScanCons(st, c, after); StepInTag(closingTag, tag, c, after != []); }
        Scan(ScanState(true, closing', tag'), after);
        { ScanTag(closing', tag', tail, rest); }
        Emission(tag' + TagName(tail), closing' || '/' in tail, rest != []) + Scan(Initial, rest);
        { assert u == [c] + tail;
          TagNameCons(c, tail);
          ConcatAssoc(tag, TagName([c]), TagName(tail)); }
        Emission(tag + TagName(u), closingTag || '/' in u, rest != []) + Scan(Initial, rest);
      }
    }
  }

  /** Inside a tag, a character other than `>` writes nothing and only updates the collected tag. */
  lemma {:induction false} StepInTag(closingTag: bool, tag: string, c: char, more: bool)
    requires c != '>'
    ensures Step(ScanState(true, closingTag, tag), c, more)
      == (ScanState(true, closingTag || c == '/', tag + TagName([c])), [])
  {
    assert TagName([c]) == (if c == '<' || c == '/' then [] else [c]) + TagName([]);
    if c == '<' || c == '/' {
      assert tag + TagName([c]) == tag;
    } else {
      assert TagName([c]) == [c];
    }
  }

  /** Concatenation regroups freely; stated once so that longer proofs need not rediscover it. */
  lemma ConcatAssoc(a: string, b: string, c: string)
    ensures a + b + c == a + (b + c)
  {
  }

  /** `TagName` of a string is that of its first character followed by that of the rest. */
  lemma {:induction false} TagNameCons(c: char, tail: string)
    ensures TagName([c] + tail) == TagName([c]) + TagName(tail)
  {
    assert ([c] + tail)[1..] == tail;
    assert TagName([c]) == (if c == '<' || c == '/' then [] else [c]) + TagName([]);
  }

  /** A tag that is never closed by a `>` swallows the rest of the input. */
  lemma {:induction false} ScanUnclosedTag(st: ScanState, u: string)
    requires st.tagStarted
    requires '>' !in u
    ensures Scan(st, u) == []
    decreases |u|
  {
    if u != [] {
      assert u == [u[0]] + u[1..];
      ScanCons(st, u[0], u[1..]);
      ScanUnclosedTag(Step(st, u[0], u[1..] != []).0, u[1..]);
    }
  }

  /** The character-by-character scan and the tag-by-tag reading agree on every input. */
  lemma {:induction false} TranslateIsRender(s: string)
    ensures Translate(s) == Render(s)
    decreases |s|, 1
  {
    if s == [] {
    } else if s[0] == '<' {
      TagFirstIsRender(s);
    } else {
      TranslateTextFirst(s);
      TranslateIsRender(s[1..]);
      if s[0] == '>' {
        assert Render(s) == [] + Render(s[1..]);
      } else {
        assert Render(s) == DropBom([s[0]]) + Render(s[1..]);
      }
    }
  }

  /** `TranslateIsRender` for an input that starts with `<`. */
  lemma {:induction false} TagFirstIsRender(s: string)
    requires s != [] && s[0] == '<'
    ensures Translate(s) == Render(s)
    decreases |s|, 0
  {
    var t := s[1..];
    TranslateTagFirst(s);
    match IndexOf(t, '>')
    case None =>
    case Some(j) =>
      TranslateIsRender(t[j + 1..]);
      assert Render(s) == Emission(TagName(t[..j]), '/' in t[..j], j + 1 < |t|) + Render(t[j + 1..]);
  }

  /** An input that starts with `<` writes nothing until the next `>`, and then that tag's emission. */
  lemma {:induction false} TranslateTagFirst(s: string)
    requires s != [] && s[0] == '<'
    ensures var t := s[1..];
      match IndexOf(t, '>')
      case None => Translate(s) == []
      case Some(j) => Translate(s) == Emission(TagName(t[..j]), '/' in t[..j], j + 1 < |t|) + Translate(t[j + 1..])
  {
    var t := s[1..];
    var inner := ScanState(true, false, "");
    assert s == [s[0]] + t;
    ScanCons(Initial, '<', t);
    assert Translate(s) == Scan(inner, t);
    match IndexOf(t, '>')
    case None =>
      ScanUnclosedTag(inner, t);
    case Some(j) =>
      SplitAt(t, j);
      ScanTag(false, "", t[..j], t[j + 1..]);
      assert "" + TagName(t[..j]) == TagName(t[..j]);
  }

  /** A string is the part before position `j`, the character at `j`, and the part after it. */
  lemma SplitAt(t: string, j: nat)
    requires j < |t|
    ensures t == t[..j] + [t[j]] + t[j + 1..]
  {
  }

  /** An input that starts with any other character writes what that character alone writes. */
  lemma {:induction false} TranslateTextFirst(s: string)
    requires s != [] && s[0] != '<'
    ensures Translate(s) == (if s[0] == '>' then [] else DropBom([s[0]])) + Translate(s[1..])
  {
    assert s == [s[0]] + s[1..];
    ScanCons(Initial, s[0], s[1..]);
    if s[0] != '>' {
      assert DropBom([s[0]]) == (if s[0] == Bom then [] else [s[0]]) + DropBom([]);
    }
  }

  /** Removing zero-width no-break spaces changes only text that contains one. */
  lemma {:induction false} DropBomUnchanged(u: string)
    requires Bom !in u
    ensures DropBom(u) == u
    decreases |u|
  {
    if u != [] {
      assert Bom !in u[1..] by { assert forall i :: 0 <= i < |u[1..]| ==> u[1..][i] == u[i + 1]; }
      DropBomUnchanged(u[1..]);
      assert u == [u[0]] + u[1..];
    }
  }

  /**
   The conversion returns its input unchanged exactly when the input holds no
   `<`, no `>` and no zero-width no-break space; `/` in ordinary text is kept.
   */
  lemma {:induction false} TranslateUnchangedIff(s: string)
    ensures Translate(s) == s <==> PlainText(s)
  {
    if PlainText(s) {
      assert '<' !in s && '>' !in s && Bom !in s by {
        assert forall c :: c in s ==> exists i :: 0 <= i < |s| && s[i] == c;
      }
      ScanText(Initial, s, []);
      DropBomUnchanged(s);
      assert s + [] == s;
    } else {
      var i :| 0 <= i < |s| && Dropped(s[i]);
      assert s[i] in s;
    }
  }

  /**
   `em`, `strong` and `s` write their styling character (`_`, `*`, `~`) at the
   opening and at the closing tag alike, whatever follows.
   */
  lemma {:induction false} StyleTags(rest: string)
    ensures Translate("<em>" + rest) == "_" + Translate(rest)
    ensures Translate("</em>" + rest) == "_" + Translate(rest)
    ensures Translate("<strong>" + rest) == "*" + Translate(rest)
    ensures Translate("</strong>" + rest) == "*" + Translate(rest)
    ensures Translate("<s>" + rest) == "~" + Translate(rest)
    ensures Translate("</s>" + rest) == "~" + Translate(rest)
  {
    assert Translate("<em>" + rest) == "_" + Translate(rest) by {
      OpenTag("em", rest);
      assert "<" + "em" + ">" == "<em>";
    }
    assert Translate("</em>" + rest) == "_" + Translate(rest) by {
      CloseTag("em", rest);
      assert "</" + "em" + ">" == "</em>";
    }
    assert Translate("<strong>" + rest) == "*" + Translate(rest) by {
      OpenTag("strong", rest);
      assert "<" + "strong" + ">" == "<strong>";
    }
    assert Translate("</strong>" + rest) == "*" + Translate(rest) by {
      CloseTag("strong", rest);
      assert "</" + "strong" + ">" == "</strong>";
    }
    assert Translate("<s>" + rest) == "~" + Translate(rest) by {
      OpenTag("s", rest);
      assert "<" + "s" + ">" == "<s>";
    }
    assert Translate("</s>" + rest) == "~" + Translate(rest) by {
      CloseTag("s", rest);
      assert "</" + "s" + ">" == "</s>";
    }
  }

  /**
   Paragraph tags: an opening `<p>` writes nothing, and a closing `</p>`
   writes a newline unless its `>` ends the input.
   */
  lemma {:induction false} ParagraphTags(rest: string)
    ensures Translate("<p>" + rest) == Translate(rest)
    ensures Translate("</p>" + rest) == (if rest == [] then "" else "\n") + Translate(rest)
  {
    OpenTag("p", rest);
    assert "<p>" + rest == "<" + "p" + ">" + rest;
    CloseTag("p", rest);
    assert "</p>" + rest == "</" + "p" + ">" + rest;
  }

  /** A line break writes a newline wherever it stands, also in its self-closing form. */
  lemma {:induction false} BreakTags(rest: string)
    ensures Translate("<br>" + rest) == "\n" + Translate(rest)
    ensures Translate("<br/>" + rest) == "\n" + Translate(rest)
  {
    OpenTag("br", rest);
    assert "<br>" + rest == "<" + "br" + ">" + rest;
    SelfClosingTag("br", rest);
    assert "<br/>" + rest == "<" + "br" + "/>" + rest;
  }

  /**
   A `/` anywhere inside a tag marks it as closing, so a self-closing tag
   `<name/>` writes what the closing tag `</name>` writes.
   */
  lemma {:induction false} SelfClosingTag(name: string, rest: string)
    requires '<' !in name && '>' !in name && '/' !in name
    ensures Translate("<" + name + "/>" + rest) == Emission(name, true, rest != []) + Translate(rest)
  {
    assert "<" + name + "/>" + rest == "<" + (name + "/") + ">" + rest;
    assert '>' !in name + "/";
    AnyTag(name + "/", rest);
    TagNameAppend(name, "/");
    TagNameOfPlainName(name);
    assert TagName("/") == [] + TagName([]);
    assert name + [] == name;
  }

  /** The tag name collected from two pieces is the two pieces' names in order. */
  lemma {:induction false} TagNameAppend(a: string, b: string)
    ensures TagName(a + b) == TagName(a) + TagName(b)
    decreases |a|
  {
    if a == [] {
      assert a + b == b;
    } else {
      assert a + b == [a[0]] + (a[1..] + b);
      TagNameCons(a[0], a[1..] + b);
      TagNameAppend(a[1..], b);
      assert a == [a[0]] + a[1..];
      TagNameCons(a[0], a[1..]);
      ConcatAssoc(TagName([a[0]]), TagName(a[1..]), TagName(b));
    }
  }

  /**
   Everything between `<` and the next `>` (tag name, attributes, quotes) is
   discarded; only the tag's emission, if any, reaches the output.
   */
  lemma {:induction false} AnyTag(u: string, rest: string)
    requires '>' !in u
    ensures Translate("<" + u + ">" + rest) == Emission(TagName(u), '/' in u, rest != []) + Translate(rest)
  {
    assert "<" + u + ">" + rest == ['<'] + (u + ['>'] + rest);
    ScanCons(Initial, '<', u + ['>'] + rest);
    ScanTag(false, "", u, rest);
    assert "" + TagName(u) == TagName(u);
  }

  /** An opening tag with a plain name writes that name's emission. */
  lemma {:induction false} OpenTag(name: string, rest: string)
    requires '<' !in name && '>' !in name && '/' !in name
    ensures Translate("<" + name + ">" + rest) == Emission(name, false, rest != []) + Translate(rest)
  {
    AnyTag(name, rest);
    TagNameOfPlainName(name);
  }

  /** A closing tag with a plain name writes that name's emission for a closing tag. */
  lemma {:induction false} CloseTag(name: string, rest: string)
    requires '<' !in name && '>' !in name && '/' !in name
    ensures Translate("</" + name + ">" + rest) == Emission(name, true, rest != []) + Translate(rest)
  {
    assert "</" + name + ">" + rest == "<" + ("/" + name) + ">" + rest;
    AnyTag("/" + name, rest);
    assert ("/" + name)[1..] == name;
    TagNameOfPlainName(name);
  }

  /** A name without `<` and `/` is collected unchanged. */
  lemma {:induction false} TagNameOfPlainName(name: string)
    requires '<' !in name && '/' !in name
    ensures TagName(name) == name
    decreases |name|
  {
    if name != [] {
      assert '<' !in name[1..] && '/' !in name[1..] by {
        assert forall i :: 0 <= i < |name[1..]| ==> name[1..][i] == name[i + 1];
      }
      TagNameOfPlainName(name[1..]);
      assert name == [name[0]] + name[1..];
    }
  }

  /** Text without `<` and `>` at the front of the input is copied without its zero-width no-break spaces. */
  lemma {:induction false} TextThenRest(text: string, rest: string)
    requires '<' !in text && '>' !in text
    ensures Translate(text + rest) == DropBom(text) + Translate(rest)
  {
    ScanText(Initial, text, rest);
  }

  /** A `>` outside any tag is dropped and writes nothing. */
  lemma {:induction false} StrayCloseDropped(rest: string)
    ensures Translate(">" + rest) == Translate(rest)
  {
    assert ">" + rest == ['>'] + rest;
    ScanCons(Initial, '>', rest);
  }

  /** A `<` that is never followed by a `>` discards the rest of the input. */
  lemma {:induction false} UnclosedTagDiscardsRest(text: string, u: string)
    requires '<' !in text && '>' !in text && '>' !in u
    ensures Translate(text + "<" + u) == DropBom(text)
  {
    assert text + "<" + u == text + (['<'] + u);
    ScanText(Initial, text, ['<'] + u);
    ScanCons(Initial, '<', u);
    ScanUnclosedTag(ScanState(true, false, ""), u);
  }
}
