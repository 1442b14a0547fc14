/**
 The conversions listed in the test table of `ConvertHTMLToWAStyle`, proved for every
 choice of the plain text between the tags and then for the table's own text.
 Inputs are written as right-nested concatenations of their pieces, which is
 the same string as the one-piece literal.
 */
module FormattingExamples {
  import opened Formatting

  /** Text free of markup and of zero-width no-break spaces at the front passes through. */
  lemma Copied(text: string, rest: string)
    requires '<' !in text && '>' !in text && Bom !in text
    ensures Translate(text + rest) == text + Translate(rest)
  {
    TextThenRest(text, rest);
    DropBomUnchanged(text);
  }

  /** Bold, italic and both, inside one paragraph. */
  lemma BoldItalicBoth(a: string, b: string, c: string)
    requires '<' !in a && '>' !in a && Bom !in a
    requires '<' !in b && '>' !in b && Bom !in b
    requires '<' !in c && '>' !in c && Bom !in c
    ensures Translate("<p>" + ("<strong>" + (a + ("</strong>" + ("<em>" + (b + ("</em>" + (" " + ("<strong>"
              + ("<em>" + (c + ("</em>" + ("</strong>" + "</p>")))))))))))))
         == "*" + (a + ("*" + ("_" + (b + ("_" + (" " + ("*" + ("_" + (c + ("_" + "*"))))))))))
  {
    var tail := " " + ("<strong>" + ("<em>" + (c + ("</em>" + ("</strong>" + "</p>")))));
    calc {
      Translate("<p>" + ("<strong>" + (a + ("</strong>" + ("<em>" + (b + ("</em>" + tail)))))));
      { ParagraphTags("<strong>" + (a + ("</strong>" + ("<em>" + (b + ("</em>" + tail)))))); }
      Translate("<strong>" + (a + ("</strong>" + ("<em>" + (b + ("</em>" + tail))))));
      { StyleTags(a + ("</strong>" + ("<em>" + (b + ("</em>" + tail))))); }
      "*" + Translate(a + ("</strong>" + ("<em>" + (b + ("</em>" + tail)))));
      { Copied(a, "</strong>" + ("<em>" + (b + ("</em>" + tail)))); }
      "*" + (a + Translate("</strong>" + ("<em>" + (b + ("</em>" + tail)))));
      { StyleTags("<em>" + (b + ("</em>" + tail))); }
      "*" + (a + ("*" + Translate("<em>" + (b + ("</em>" + tail)))));
      { StyleTags(b + ("</em>" + tail)); }
      "*" + (a + ("*" + ("_" + Translate(b + ("</em>" + tail)))));
      { Copied(b, "</em>" + tail); }
      "*" + (a + ("*" + ("_" + (b + Translate("</em>" + tail)))));
      { StyleTags(tail); }
      "*" + (a + ("*" + ("_" + (b + ("_" + Translate(tail))))));
      { BothAtEnd(c); }
      "*" + (a + ("*" + ("_" + (b + ("_" + (" " + ("*" + ("_" + (c + ("_" + "*"))))))))));
    }
  }

  /** The last run of `BoldItalicBoth`: a space, then text both bold and italic, then the paragraph end. */
  lemma BothAtEnd(c: string)
    requires '<' !in c && '>' !in c && Bom !in c
    ensures Translate(" " + ("<strong>" + ("<em>" + (c + ("</em>" + ("</strong>" + "</p>"))))))
         == " " + ("*" + ("_" + (c + ("_" + "*"))))
  {
    calc {
      Translate(" " + ("<strong>" + ("<em>" + (c + ("</em>" + ("</strong>" + "</p>"))))));
      { Copied(" ", "<strong>" + ("<em>" + (c + ("</em>" + ("</strong>" + "</p>"))))); }
      " " + Translate("<strong>" + ("<em>" + (c + ("</em>" + ("</strong>" + "</p>")))));
      { StyleTags("<em>" + (c + ("</em>" + ("</strong>" + "</p>")))); }
      " " + ("*" + Translate("<em>" + (c + ("</em>" + ("</strong>" + "</p>")))));
      { StyleTags(c + ("</em>" + ("</strong>" + "</p>"))); }
      " " + ("*" + ("_" + Translate(c + ("</em>" + ("</strong>" + "</p>")))));
      { Copied(c, "</em>" + ("</strong>" + "</p>")); }
      " " + ("*" + ("_" + (c + Translate("</em>" + ("</strong>" + "</p>")))));
      { StyleTags("</strong>" + "</p>"); }
      " " + ("*" + ("_" + (c + ("_" + Translate("</strong>" + "</p>")))));
      { StyleTags("</p>"); }
      " " + ("*" + ("_" + (c + ("_" + ("*" + Translate("</p>"))))));
      { ParagraphTags(""); assert "</p>" + "" == "</p>"; }
      " " + ("*" + ("_" + (c + ("_" + ("*" + ""))))); 
    }
  }

  lemma BoldItalicBothExample()
    ensures Translate("<p>" + ("<strong>" + ("bold " + ("</strong>" + ("<em>" + ("italic" + ("</em>" + (" "
              + ("<strong>" + ("<em>" + ("both" + ("</em>" + ("</strong>" + "</p>")))))))))))))
         == "*" + ("bold " + ("*" + ("_" + ("italic" + ("_" + (" " + ("*" + ("_" + ("both" + ("_" + "*"))))))))))
  {
    BoldItalicBoth("bold ", "italic", "both");
  }

  /** Two paragraphs are separated by one newline and the last one adds none. */
  lemma TwoParagraphs(a: string, b: string)
    requires '<' !in a && '>' !in a && Bom !in a
    requires '<' !in b && '>' !in b && Bom !in b
    ensures Translate("<p>" + (a + ("</p>" + ("<p>" + (b + "</p>"))))) == a + ("\n" + b)
  {
    calc {
      Translate("<p>" + (a + ("</p>" + ("<p>" + (b + "</p>")))));
      { ParagraphTags(a + ("</p>" + ("<p>" + (b + "</p>")))); }
      Translate(a + ("</p>" + ("<p>" + (b + "</p>"))));
      { Copied(a, "</p>" + ("<p>" + (b + "</p>"))); }
      a + Translate("</p>" + ("<p>" + (b + "</p>")));
      { ParagraphTags("<p>" + (b + "</p>")); }
      a + ("\n" + Translate("<p>" + (b + "</p>")));
      { LastParagraph(b); }
      a + ("\n" + b);
    }
  }

  /** A paragraph at the very end of the input contributes its text and no newline. */
  lemma LastParagraph(t: string)
    requires '<' !in t && '>' !in t && Bom !in t
    ensures Translate("<p>" + (t + "</p>")) == t
  {
    calc {
      Translate("<p>" + (t + "</p>"));
      { ParagraphTags(t + "</p>"); }
      Translate(t + "</p>");
      { Copied(t, "</p>"); }
      t + Translate("</p>");
      { ParagraphTags(""); assert "</p>" + "" == "</p>"; }
      t;
    }
  }

  lemma TwoParagraphsExample()
    ensures Translate("<p>" + ("test" + ("</p>" + ("<p>" + ("test2" + "</p>"))))) == "test" + ("\n" + "test2")
  {
    TwoParagraphs("test", "test2");
  }

  /** A line break between two paragraphs adds a second newline. */
  lemma ParagraphBreakParagraph(a: string, b: string)
    requires '<' !in a && '>' !in a && Bom !in a
    requires '<' !in b && '>' !in b && Bom !in b
    ensures Translate("<p>" + (a + ("</p>" + ("<br>" + ("<p>" + (b + "</p>")))))) == a + ("\n" + ("\n" + b))
  {
    calc {
      Translate("<p>" + (a + ("</p>" + ("<br>" + ("<p>" + (b + "</p>"))))));
      { ParagraphTags(a + ("</p>" + ("<br>" + ("<p>" + (b + "</p>"))))); }
      Translate(a + ("</p>" + ("<br>" + ("<p>" + (b + "</p>")))));
      { Copied(a, "</p>" + ("<br>" + ("<p>" + (b + "</p>")))); }
      a + Translate("</p>" + ("<br>" + ("<p>" + (b + "</p>"))));
      { ParagraphTags("<br>" + ("<p>" + (b + "</p>"))); }
      a + ("\n" + Translate("<br>" + ("<p>" + (b + "</p>"))));
      { BreakTags("<p>" + (b + "</p>")); }
      a + ("\n" + ("\n" + Translate("<p>" + (b + "</p>"))));
      { LastParagraph(b); }
      a + ("\n" + ("\n" + b));
    }
  }

  lemma ParagraphBreakParagraphExample()
    ensures Translate("<p>" + ("test" + ("</p>" + ("<br>" + ("<p>" + ("test2" + "</p>"))))))
         == "test" + ("\n" + ("\n" + "test2"))
  {
    ParagraphBreakParagraph("test", "test2");
  }

  /** A `/` in the text of a paragraph is kept. */
  lemma SlashInTextExample()
    ensures Translate("<p>" + ("geht/das" + "</p>")) == "geht/das"
  {
    LastParagraph("geht/das");
  }

  /** The inside of the three opening tags of the editor's emoji markup; their attributes are discarded. */
  const BlotClass: string := " class=\"ql-emojiblot\""
  const BlotName: string := " data-name=\"sunglasses\""
  const BlotTag: string := "span" + BlotClass + BlotName
  const LockedTag: string := "span" + " contenteditable=\"false\""
  const GlyphTag: string := "span" + " class=\"ap ap-sunglasses\""
  const BlotOpen: string := "<" + BlotTag + ">"
  const LockedOpen: string := "<" + LockedTag + ">"
  const GlyphOpen: string := "<" + GlyphTag + ">"

  /** The inside of an opening tag, attributes included, whose name is no styling tag. */
  predicate Ignorable(u: string)
  {
    Unmarked(u) && u !in {"em", "strong", "s", "p", "br"}
  }

  /** Text that can sit inside a tag without ending it or marking it as closing. */
  predicate Unmarked(u: string)
  {
    '<' !in u && '>' !in u && '/' !in u
  }

  lemma BlotClassUnmarked()
    ensures Unmarked(BlotClass)
  {
  }

  lemma BlotNameUnmarked()
    ensures Unmarked(BlotName)
  {
  }

  lemma BlotTagIgnorable()
    ensures Ignorable(BlotTag)
  {
    BlotClassUnmarked();
    BlotNameUnmarked();
  }

  lemma LockedTagIgnorable()
    ensures Ignorable(LockedTag)
  {
  }

  lemma GlyphTagIgnorable()
    ensures Ignorable(GlyphTag)
  {
  }

  /** A tag with attributes whose name is no styling tag writes nothing. */
  lemma Ignored(u: string, rest: string)
    requires Ignorable(u)
    ensures Translate("<" + u + ">" + rest) == Translate(rest)
  {
    OpenTag(u, rest);
  }

  /** A zero-width no-break space outside a tag is dropped. */
  lemma BomDropped(rest: string)
    ensures Translate([Bom] + rest) == Translate(rest)
  {
    TextThenRest([Bom], rest);
    assert DropBom([Bom]) == [] + DropBom([]);
  }

  /** A closing `</span>` writes nothing. */
  lemma SpanClosed(rest: string)
    ensures Translate("</span>" + rest) == Translate(rest)
  {
    CloseTag("span", rest);
    assert "</span>" + rest == "</" + "span" + ">" + rest;
  }

  /** The emoji markup inside bold text: only the emoji and the text after it remain. */
  lemma EmojiInBold(e: string, d: string)
    requires '<' !in e && '>' !in e && Bom !in e
    requires '<' !in d && '>' !in d && Bom !in d
    ensures Translate("<p>" + ("<strong>" + (BlotOpen + ([Bom] + (LockedOpen + (GlyphOpen + (e + ("</span>"
              + ("</span>" + ([Bom] + ("</span>" + (d + ("</strong>" + "</p>")))))))))))))
         == "*" + (e + (d + "*"))
  {
    BlotTagIgnorable();
    LockedTagIgnorable();
    GlyphTagIgnorable();
    var tail := "</span>" + ("</span>" + ([Bom] + ("</span>" + (d + ("</strong>" + "</p>")))));
    calc {
      Translate("<p>" + ("<strong>" + (BlotOpen + ([Bom] + (LockedOpen + (GlyphOpen + (e + tail)))))));
      { ParagraphTags("<strong>" + (BlotOpen + ([Bom] + (LockedOpen + (GlyphOpen + (e + tail)))))); }
      Translate("<strong>" + (BlotOpen + ([Bom] + (LockedOpen + (GlyphOpen + (e + tail))))));
      { StyleTags(BlotOpen + ([Bom] + (LockedOpen + (GlyphOpen + (e + tail))))); }
      "*" + Translate(BlotOpen + ([Bom] + (LockedOpen + (GlyphOpen + (e + tail)))));
      { Ignored(BlotTag, [Bom] + (LockedOpen + (GlyphOpen + (e + tail)))); }
      "*" + Translate([Bom] + (LockedOpen + (GlyphOpen + (e + tail))));
      { BomDropped(LockedOpen + (GlyphOpen + (e + tail))); }
      "*" + Translate(LockedOpen + (GlyphOpen + (e + tail)));
      { Ignored(LockedTag, GlyphOpen + (e + tail)); }
      "*" + Translate(GlyphOpen + (e + tail));
      { Ignored(GlyphTag, e + tail); }
      "*" + Translate(e + tail);
      { Copied(e, tail); }
      "*" + (e + Translate(tail));
      { EmojiTail(d); }
      "*" + (e + (d + "*"));
    }
  }

  /** The closing half of the emoji markup, then the text after it and the end of bold and paragraph. */
  lemma EmojiTail(d: string)
    requires '<' !in d && '>' !in d && Bom !in d
    ensures Translate("</span>" + ("</span>" + ([Bom] + ("</span>" + (d + ("</strong>" + "</p>")))))) == d + "*"
  {
    calc {
      Translate("</span>" + ("</span>" + ([Bom] + ("</span>" + (d + ("</strong>" + "</p>"))))));
      { SpanClosed("</span>" + ([Bom] + ("</span>" + (d + ("</strong>" + "</p>"))))); }
      Translate("</span>" + ([Bom] + ("</span>" + (d + ("</strong>" + "</p>")))));
      { SpanClosed([Bom] + ("</span>" + (d + ("</strong>" + "</p>")))); }
      Translate([Bom] + ("</span>" + (d + ("</strong>" + "</p>"))));
      { BomDropped("</span>" + (d + ("</strong>" + "</p>"))); }
      Translate("</span>" + (d + ("</strong>" + "</p>")));
      { SpanClosed(d + ("</strong>" + "</p>")); }
      Translate(d + ("</strong>" + "</p>"));
      { Copied(d, "</strong>" + "</p>"); }
      d + Translate("</strong>" + "</p>");
      { StyleTags("</p>"); }
      d + ("*" + Translate("</p>"));
      { ParagraphTags(""); assert "</p>" + "" == "</p>"; }
      d + "*";
    }
  }

  lemma EmojiInBoldExample()
    ensures Translate("<p>" + ("<strong>" + (BlotOpen + ([Bom] + (LockedOpen + (GlyphOpen + ("\U{1F60E}" + ("</span>"
              + ("</span>" + ([Bom] + ("</span>" + ("df" + ("</strong>" + "</p>")))))))))))))
         == "*" + ("\U{1F60E}" + ("df" + "*"))
  {
    EmojiInBold("\U{1F60E}", "df");
  }
}
