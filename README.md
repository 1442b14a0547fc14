# HTML-to-WhatsApp inline-markup converter, modelled in Dafny

The relay turns the HTML that its control API's rich-text editor produces into
WhatsApp's plain-text styling before a `create` command is sent out. The
conversion is `ConvertHTMLToWAStyle` in `util/formatting.go`. It makes one pass
over the input and keeps three variables:

- `tagStarted`: the scan is inside `<...>`.
- `closingTag`: a `/` was seen inside the current tag.
- `tag`: the characters collected since the `<`.

At every `>` it writes a styling character chosen by the collected tag and resets all three:

| tag | writes |
|---|---|
| `em` | `_` |
| `strong` | `*` |
| `s` | `~` |
| `br` | a newline |
| `p` | a newline if a `/` was seen and the `>` is not the last character; otherwise nothing |
| anything else | nothing |

Outside a tag every character is copied, `/` included, except a stray `>` and
U+FEFF (the zero-width no-break space), which are dropped. Inside a tag nothing
is copied. A `<` or `/` inside a tag is not collected into `tag`: a `<` changes
nothing and a `/` only sets `closingTag`.

The model is one module, `Formatting` (`formatting.dfy`):

- `Step` is one iteration of the loop. `Scan` runs it over the rest of the
  input, and `Translate` is the whole conversion.
- The `ScanState` datatype holds the three variables.
- `Emission` is the `switch tag` at a `>`.
- `ConvertHTMLToWAStyle` is the loop itself, with the three variables and an
  output that grows by appending. It is proved to return `Translate(input)`.
- `Render` is an independent definition that treats a whole tag `<...>` as one
  unit. `TranslateIsRender` proves that it agrees with the character-by-character
  scan on every input.
- The remaining lemmas state what the conversion promises. Each tag kind gets
  its own lemma, and there are lemmas for text, for tags with attributes, for a
  stray `>`, for an unterminated tag, and for the unchanged-input condition.

A second module, `FormattingExamples` (`formatting_examples.dfy`), proves the
five cases of `util/formatting_test.go`. Each case is proved first for any
plain text between the tags and then for the test's own text. A proved input is
written as a right-nested concatenation of its pieces, which is the same string
as the test's literal.

Go's `range` over a string yields byte offsets. The one place an offset is used
is `(index+1) < len(input)`, and it is evaluated only when the current character
is the one-byte `>`. So "another byte follows" is the same as "another character
follows". The model therefore reads the input as a sequence of decoded
characters: `Step` gets a flag saying whether another character follows, and the
method tests `index + 1 < |input|` on character positions.

Behaviour of the code worth knowing:

- Any `/` inside a tag makes it a closing tag, not only a `/` right after the
  `<`. So `<br/>` and `<p/>` act as closing tags (`SelfClosingTag`), and so does
  a tag with a `/` inside an attribute value.
- Text without tags is not always returned unchanged. A stray `>` and U+FEFF are
  dropped even when no `<` appears. The exact condition is
  `TranslateUnchangedIff`.
- A closing `</p>` avoids a trailing newline only when its `>` is the last
  character of the input. `</p>` followed by any other tag, such as
  `</p></strong>` or `</p><span>`, still writes the newline.
- Everything between `<` and `>` other than `<` and `/` is collected into the
  tag, including attributes, spaces and quotes. A tag with attributes therefore
  matches no case and writes nothing (`AnyTag`). Because a second `<` is
  skipped, `<e<m>` acts as `<em>`.

## Model

| member | source | states |
|---|---|---|
| Formatting.Emission | util/formatting.go:17-30 | At a `>` at most one character is written, never `<`, `>` or U+FEFF; something is written exactly for `em`, `strong`, `s`, `br`, and for `p` when it is closing and more input follows |
| Formatting.Step | util/formatting.go:13-46 | One character writes at most one character and never `<`, `>` or U+FEFF; `>` resets the state to the initial one; inside a tag nothing is written; outside a tag any character other than `<`, `>` and U+FEFF is copied with the state unchanged |
| Formatting.ScanBounds | util/formatting.go:12-47 | `Scan`, the loop run over the rest of the input from a given state, writes no more characters than it reads and never `<`, `>` or U+FEFF, for every suffix and state |
| Formatting.Translate | util/formatting.go:7-49 | The conversion's output is no longer than its input and contains no `<`, `>` or U+FEFF |
| Formatting.ConvertHTMLToWAStyle | util/formatting.go:7-49 | The loop with its three mutable variables and appended output returns exactly `Translate(input)` |
| Formatting.DropBom | util/formatting.go:40-45 | Copied text never contains U+FEFF and is no longer than the original |
| Formatting.TagName | util/formatting.go:34-42 | The collected tag holds neither `<` nor `/` and is no longer than the characters it was collected from |
| Formatting.ScanText | util/formatting.go:34-45 | Outside a tag, text without `<` and `>` is copied minus U+FEFF, `/` included, and the state does not change |
| Formatting.StepInTag | util/formatting.go:14-42 | Inside a tag, a character other than `>` writes nothing; `/` sets `closingTag`, `<` changes nothing, any other character is appended to `tag` |
| Formatting.ScanTag | util/formatting.go:14-42 | Inside a tag, everything up to the next `>` is collected and not copied; that `>` writes the emission of the whole collected tag, and the scan continues from the initial state |
| Formatting.ScanUnclosedTag | util/formatting.go:37-42 | Inside a tag with no `>` left in the input, nothing more is written |
| Formatting.TranslateTagFirst | util/formatting.go:14-33 | An input that starts with `<` writes nothing before the next `>` and then that tag's emission; with no `>` it writes nothing at all |
| Formatting.TranslateTextFirst | util/formatting.go:16-45 | An input that starts with any character but `<` writes that character minus U+FEFF, or nothing for a stray `>`, followed by the conversion of the rest |
| Formatting.Render | util/formatting.go:7-49 | The tag-at-a-time reading writes no more characters than it reads and never `<`, `>` or U+FEFF |
| Formatting.TranslateIsRender | util/formatting.go:7-49 | The character-by-character scan equals the tag-at-a-time reading `Render` on every input |
| Formatting.TagFirstIsRender | util/formatting.go:14-33 | For an input that starts with `<`, the scan and `Render` agree; this is the tag case of `TranslateIsRender` |
| Formatting.TranslateUnchangedIff | util/formatting.go:34-45 | The output equals the input if and only if the input has no `<`, no `>` and no U+FEFF |
| Formatting.StyleTags | util/formatting.go:18-23 | `<em>` and `</em>` both write `_`, `<strong>` and `</strong>` both write `*`, `<s>` and `</s>` both write `~`, whatever follows |
| Formatting.ParagraphTags | util/formatting.go:24-27 | `<p>` writes nothing; `</p>` writes a newline unless its `>` is the last character of the input |
| Formatting.BreakTags | util/formatting.go:28-29 | `<br>` and `<br/>` write a newline wherever they stand, also at the end of the input |
| Formatting.SelfClosingTag | util/formatting.go:34-39 | A `/` after the name, as in `<name/>`, makes the tag write what `</name>` writes |
| Formatting.AnyTag | util/formatting.go:16-42 | A tag `<u>` writes only the emission of `u` minus `<` and `/`; attributes and quotes are never copied |
| Formatting.OpenTag | util/formatting.go:16-33 | An opening tag with a plain name writes that name's emission for a non-closing tag |
| Formatting.CloseTag | util/formatting.go:16-39 | `</name>` writes that name's emission for a closing tag |
| Formatting.TextThenRest | util/formatting.go:40-45 | Leading text without `<` and `>` is copied minus U+FEFF, followed by the conversion of the rest |
| Formatting.StrayCloseDropped | util/formatting.go:16-33 | A `>` outside any tag is dropped and writes nothing |
| Formatting.UnclosedTagDiscardsRest | util/formatting.go:14-42 | A `<` with no later `>` discards everything after it |
| FormattingExamples.BoldItalicBoth | util/formatting_test.go:11-12 | Bold, italic and bold-italic runs in a paragraph become `*a*_b_ *_c_*` for any plain texts `a`, `b`, `c` |
| FormattingExamples.BoldItalicBothExample | util/formatting_test.go:11-12 | The test's first input becomes `*bold *_italic_ *_both_*` |
| FormattingExamples.TwoParagraphs | util/formatting_test.go:15-16 | Two paragraphs become their texts separated by one newline, with none at the end |
| FormattingExamples.TwoParagraphsExample | util/formatting_test.go:15-16 | `<p>test</p><p>test2</p>` becomes `test\ntest2` |
| FormattingExamples.ParagraphBreakParagraph | util/formatting_test.go:19-20 | A `<br>` between two paragraphs adds a second newline |
| FormattingExamples.ParagraphBreakParagraphExample | util/formatting_test.go:19-20 | `<p>test</p><br><p>test2</p>` becomes `test\n\ntest2` |
| FormattingExamples.LastParagraph | util/formatting_test.go:23-24 | A paragraph that ends the input becomes its text alone |
| FormattingExamples.SlashInTextExample | util/formatting_test.go:23-24 | `<p>geht/das</p>` becomes `geht/das`: a `/` in text is kept |
| FormattingExamples.EmojiInBold | util/formatting_test.go:27-28 | The editor's emoji markup inside bold text keeps only the emoji and the text after it, between `*`s; its attributes and U+FEFF are dropped |
| FormattingExamples.EmojiInBoldExample | util/formatting_test.go:27-28 | The test's emoji input becomes `*😎df*` |

## Left out

- `main.go` is not part of this model. It holds configuration loading, the websocket dial, read loop and reconnect, the WhatsApp client setup and QR login, and the signal-driven shutdown. All of it is I/O, concurrency or calls into libraries whose code is not here.
- The command dispatcher in `main.go` is left out for the same reason. It is a loop over the configured recipients that calls the WhatsApp client's send and revoke functions, and those functions are foreign code.
- `Main.go` is an older entry point. It is I/O plumbing whose code after its endless authentication loop is unreachable, so it is left out.
- Invalid UTF-8 is not modelled. Go's `range` decodes a bad byte sequence as U+FFFD. The model's input is a sequence of already-decoded Unicode scalar values, so byte-level decoding is outside it.
- `bytes.Buffer` is modelled as a `string` value that the method extends by appending. The buffer's growth and allocation are not modelled.
