# Verified models of the terminal UI, the agent loop and their stream handling

This project models, in Dafny, the parts of the repository in which state, interleaving and text rewriting
make mistakes easy, and proves what they promise for all inputs and all runs.

- **Differential rendering** (`Terminals`, `Renderer`). A terminal is a scrollback, a screen and a cursor; the
  renderer sends it relative moves, erasures and changed lines. Every branch is proved to leave exactly what a
  full redraw would leave: the frame's text, row for row, and the cursor at the marker. A rendered line is an
  opaque non-empty string whose width and normal form are given functions. The renderer is kept in step
  exactly when the cursor marker, if there is one, is not above the screen; a concrete run shows that it can
  be, and a forced render brings the renderer back in step from any state.
- **Terminal input** (`StdinBuffers`, `StdinGrammar`, `StdinEvents`, `StdinChunks`, `StdinStreams`). The
  splitter of escape sequences and bracketed pastes: the grammar it recognises, and its independence of
  chunking, with exactly the cuts, for every input, at which that fails.
- **Styled text** (`Ansi`, `AnsiTable`, `StyledText`, `Wrap`, `WrapFill`, `Slices`, `Composite`). A line is a
  sequence of codes and graphemes, and its meaning is its graphemes with the style in force at each. Wrapping
  and overlaying preserve that meaning; they keep to their widths and columns exactly under the conditions
  stated, and wrapped lines are filled. `AnsiTable` says what every code does.
- **The agent loop** (`AgentEvents`, `AgentLoop`, `AgentSafety`, `AgentCalls`, `AgentAborts`, `AgentOutcomes`,
  `AgentMirror`, `AgentTranscript`, `AgentQueues`, `AgentTurns`, `Agents`). The loop is a machine whose steps
  are what runs between two awaits; the model, the tools, hooks, aborts and queued messages are inputs in any
  order. Proved over all runs: the event grammar, tool batches under every completion order with each call
  started, ended and answered once with what its tool returned, replies that are the model's, agreement of
  every record of the transcript, conservation of both message queues, and when a further turn begins.
  `Agents` holds the objects that change in place.
- **Small protocols** (`Controller`, `Framing`, `RpcProcess`, `Proxy`, `Fuzzy`). The per-chat queue with abort
  epochs, request and response correlation with exactly-once settlement, rebuilding of a stripped message
  stream, and greedy fuzzy matching with what decides its ranking.

`Text` holds string basics. Where the source works by changing fields or looping, the model has a class or a
method with a loop, proved against a specification function; the theorems are about that function.

What the proofs showed about the code:

- The cursor marker is searched in the last `height` lines, which after a shrink can lie above the screen
  (tui.ts:1238). The relative move then stops at the top edge and the next render draws on wrong rows.
- Three branches of `doRender` are never taken: the scroll before a move (tui.ts:1469-1480), the full redraw
  for more than `height` dropped lines (tui.ts:1424-1428), and the move down before erasing
  (tui.ts:1559-1563).
- Input gives other events than as one chunk exactly when a chunk boundary in key text lies between two
  escapes and the character that opens a sequence after them (stdin-buffer.ts:207-230), or inside a paste's
  start marker after part of it was emitted as a key, as after a lone escape (stdin-buffer.ts:337-351).
- Wrapping can leave a line that is too wide, against its documentation (utils.ts:707-709): the code that ends
  an underlined or linked line protects blanks before it from being trimmed (utils.ts:762-770). It does
  exactly when a long word comes in such a style while the current line is too wide already. Every line fits
  once blanks and codes at its end are left out, and fits entirely if plain spaces are the only blanks and
  every grapheme takes a column.
- Cutting columns out of the middle of a line reads codes inside the range before the ones that preceded it,
  so the first graphemes of a cut can take an older colour or link (utils.ts:1101-1116).
- Reusing the id of a pending request leaves the first promise unsettled for ever (rpc-process.ts:147-158).
- A tool-call delta that comes after the call's end is appended to the text `undefined` (proxy.ts:320-346);
  the partial JSON is the concatenation of all deltas exactly when no end precedes a delta, or when the deltas
  before the last end spell that very word.
- An abort in a tool batch does not stop calls whose preparation had ended: they are still executed, all of
  them in a parallel batch (agent-loop.ts:535-540) and the one under way in a sequential batch
  (agent-loop.ts:455-475), and no others are. If no call has been started, the first one still is
  (agent-loop.ts:446, 501), and then refused.
- An overlay that ends inside a wide grapheme removes it, and what follows on that line moves left by the
  columns that remain of it (utils.ts:1183-1200).

Hypotheses: hooks, listeners and the sends that report an error do not fail; a response stream starts at most
once; every line of standard output and of the proxy stream parses; prompts and queued messages are user
messages. Parsing, lower-casing, width and segmentation are given functions. Scores are real numbers.

## Model

| member | source | states |
|---|---|---|
| Renderer.Tui.DoRender | packages/tui/src/tui.ts:1256-1622 | Whichever branch runs: for every line of the frame the terminal's row of that number, counted from the top of the scrollback, shows the line's normal form followed by the reset, and every further row is blank; the screen starts at `previousViewportTop`, and the remembered view is the one `NextView` gives; if there is a marker in the last `height` lines the cursor is in its row, or at the top of the screen if that is above it, and in its column; and afterwards the renderer is in step with the terminal, cursor row included, if and only if the marker is not above the screen. Before it, the renderer is in step or the frame is one that clears. A stopped renderer changes nothing. |
| Renderer.RefinesFullRedraw | packages/tui/src/tui.ts:1286-1327 | A terminal that shows the lines holds row for row what clearing any terminal of its size and printing every line gives, followed by blank rows; with the same top row it has the same scrollback and screen. With `DoRender`: every differential render refines a full redraw. |
| Renderer.PrintAllDisplays | packages/tui/src/tui.ts:1286-1327 | Printing all lines on a clean terminal shows them with the screen at the last `height` of them and the cursor on the last line. |
| Renderer.ViewportInvariant | packages/tui/src/tui.ts:1320-1321 | Over every run of frames, drawn fully or differentially, the drawn lines fit the rows from the top of the scrollback to the bottom of the screen and at least one of them is on the screen (so no differential write goes to a row that has scrolled off). |
| Renderer.ScrolledOffChange | packages/tui/src/tui.ts:1369-1480 | The branch tests choose a full redraw exactly when a row that has scrolled off would have to change, or no line would be left on the screen. |
| Renderer.NextViewIs | packages/tui/src/tui.ts:1286-1480 | What is drawn next, whatever the branch: all new lines; from scratch, at the last `height` of them, exactly if clearing was asked for, a row that has scrolled off differs, or no line is left on the screen; else from the old top, moved down only to the last `height` lines. |
| Renderer.ChangedRange | packages/tui/src/tui.ts:1369-1395 | -1 if and only if the lines are equal; else the range encloses every difference, is tight at both ends, and reaches to the end of the longer list if the lengths differ. |
| Renderer.OnlyChangedLinesArePrinted | packages/tui/src/tui.ts:1492-1551 | Of the lines of the frame, the buffer prints those of the changed range, once each and in order, and no other. |
| Renderer.DiffBuffer | packages/tui/src/tui.ts:1455-1622 | The buffer is the command list `DiffCommands`, a function of the believed cursor row, and turns a terminal showing the old lines into one showing the new ones, with the stated cursor row and screen top; the scroll and move branches proved dead are marked in the body. |
| Renderer.MoveToFirst | packages/tui/src/tui.ts:1463-1490 | The relative move and CR or CR LF land on column 0 of the first changed row, without being stopped by a screen edge, scrolling just enough to show it. |
| Renderer.PaintRows | packages/tui/src/tui.ts:1492-1551 | Erasing and printing row after row replaces exactly the rows of the changed range and scrolls as far as the last of them needs. |
| Renderer.EraseBelow | packages/tui/src/tui.ts:1553-1570 | The rows below the new end are erased and the cursor returns to the last new line. |
| Renderer.ShrinkBuffer | packages/tui/src/tui.ts:1406-1453 | If only trailing lines are gone, erasing their rows leaves the terminal showing the rest. |
| Renderer.Tui.FullRender | packages/tui/src/tui.ts:1286-1327 | Clears if asked, prints every line, and leaves the renderer in step with the terminal if and only if the marker is on the screen. |
| Renderer.FullBuffer | packages/tui/src/tui.ts:1286-1309 | The loop builds the clear codes, if any, followed by every line joined with CR LF. |
| Renderer.Tui.Differential | packages/tui/src/tui.ts:1362-1622 | The comparing branches taken together: new view, shown lines, and the exact condition for staying in step. |
| Renderer.Tui.DropLines | packages/tui/src/tui.ts:1406-1453 | Dropping trailing lines: the view keeps its top row and shows the remaining lines. |
| Renderer.Tui.RedrawChanged | packages/tui/src/tui.ts:1455-1622 | Redrawing changed rows: the screen top moves down only as far as the new lines need. |
| Renderer.Tui.PositionHardwareCursor | packages/tui/src/tui.ts:1629-1660 | Moves the cursor to the marker's row and column, as far as they are on the screen, without changing any row; the believed row equals the real one if and only if the marker is not above the screen. |
| Renderer.ExtractCursorPosition | packages/tui/src/tui.ts:1236-1254 | The marker found is the last marked line among the last `height` lines. |
| Renderer.LastMarkIsLast | packages/tui/src/tui.ts:1236-1254 | What 'last marked line' means: it is in range, marked, and no later line in range is marked; none found means none marked. |
| Renderer.FoundMarkerIsVisibleAfterFullRedraw | packages/tui/src/tui.ts:1236-1254 | A marker that is found is never above a screen that starts where a full redraw starts it. |
| Renderer.MarkerAboveTheScreen | packages/tui/src/tui.ts:1236-1254 | A concrete run in which the marker is found above the screen after a shrink, so that the in-step property fails as the exact condition says. |
| Renderer.NextRenderMissesItsRow | packages/tui/src/tui.ts:1629-1660 | In that state the buffer that `DiffBuffer` is proved to send for the next frame, run on the terminal as it is, leaves rows that are not those of the new lines. |
| Renderer.Tui.constructor | packages/tui/src/tui.ts:1337-1342 | On a clean terminal with the cursor home the renderer starts in step with nothing drawn. |
| Renderer.Tui.ForceRender | packages/tui/src/tui.ts:714-722 | In any state, in step with the terminal or not: everything drawn is forgotten and the next render clears. |
| Renderer.Tui.ForcedRender | packages/tui/src/tui.ts:714-735 | The recovery: after a forced render of a frame, in step before or not, the terminal shows the frame's text row for row and nothing else, from where a full redraw starts the screen, the cursor is at the marker, and the renderer is always in step. |
| Renderer.Tui.Resize | packages/tui/src/tui.ts:1344-1358 | Whatever the terminal does to its rows on a resize, and even if the renderer was out of step, the invariant holds afterwards because the next render must clear; by `DoRender` that render is in step if and only if its marker is not above the screen. |
| Terminals.Terminal.NewlineStep | packages/tui/src/tui.ts:1293-1308 | CR LF moves to the next row and scrolls just enough to show it; rows keep their numbers. |
| Terminals.Terminal.MoveTo | packages/tui/src/tui.ts:1266-1270 | A relative vertical move whose target is on the screen lands exactly there. |
| StdinBuffers.ExtractCompleteSequences | packages/tui/src/stdin-buffer.ts:192-255 | The scanning loop computes the split into first pieces and a remainder. |
| StdinBuffers.ExtractPiece | packages/tui/src/stdin-buffer.ts:200-246 | The inner loop that lengthens a candidate finds the shortest complete piece, with the rule for two escapes. |
| StdinBuffers.FirstPiece | packages/tui/src/stdin-buffer.ts:192-255 | A piece is non-empty and in range; input with no complete piece starts with an escape. |
| StdinBuffers.SplitIsLossless | packages/tui/src/stdin-buffer.ts:192-255 | For every input: pieces and remainder together are the input, no piece is empty, and the remainder is empty or an escape sequence no prefix of which is complete. |
| StdinBuffers.SplitOfParts | packages/tui/src/stdin-buffer.ts:192-255 | How the split of a cut input relates to the split of the whole, at every cut. |
| StdinBuffers.SplitOfPartsIff | packages/tui/src/stdin-buffer.ts:207-230 | Splitting part by part gives the split of the whole if and only if the cut is not between two escapes and the sequence the second one opens. |
| StdinGrammar.CsiIsOnePiece | packages/tui/src/stdin-buffer.ts:84-126 | `ESC [`, any bytes that are not final and do not start with `<`, and the first byte from 0x40 to 0x7E: in front of any further input this is exactly one piece, and as long as it is not complete it is held back whole. |
| StdinGrammar.SgrMouseIsOnePiece | packages/tui/src/stdin-buffer.ts:101-120 | The same for a mouse report of three numbers. |
| StdinGrammar.MouseIsOnePiece | packages/tui/src/stdin-buffer.ts:41-46 | The same for the older mouse report, whatever its three bytes are. |
| StdinGrammar.Ss3IsOnePiece | packages/tui/src/stdin-buffer.ts:65-69 | The same for `ESC O` and one byte. |
| StdinGrammar.StringIsOnePiece | packages/tui/src/stdin-buffer.ts:128-179 | The same for an OSC up to BEL or ST, and for a DCS or APC up to ST, whatever else they hold. |
| StdinGrammar.MetaKeyIsOnePiece | packages/tui/src/stdin-buffer.ts:71-77 | The same for an escape and any byte that opens no sequence, but another escape. |
| StdinGrammar.TwoEscapes | packages/tui/src/stdin-buffer.ts:207-233 | Two escapes are one piece unless the second one opens a sequence, when the first is a key. |
| StdinGrammar.PlainIsOnePiece | packages/tui/src/stdin-buffer.ts:247-251 | Every other character is a piece by itself. |
| StdinEvents.StdinBuffer.ProcessChunk | packages/tui/src/stdin-buffer.ts:287-386 | The object's fields and its emitted events after a chunk are those of the specification function `Process`. |
| StdinEvents.StdinBuffer.StartPaste | packages/tui/src/stdin-buffer.ts:337-351 | The paste-start branch, as the specification says: what precedes is emitted, an incomplete rest of it is discarded, what follows is pasted text. |
| StdinEvents.StdinBuffer.EndPaste | packages/tui/src/stdin-buffer.ts:315-367 | A completed paste is one event; what follows it is processed anew. |
| StdinEvents.StdinBuffer.EmitDataSequence | packages/tui/src/stdin-buffer.ts:389-398 | A single character that repeats the key report before it is dropped, everything else is emitted. |
| StdinEvents.StdinBuffer.EmitSequences | packages/tui/src/stdin-buffer.ts:371-376 | The pieces are emitted one after the other, each judged by the key report before it. |
| StdinEvents.KittyCodepoint | packages/tui/src/stdin-buffer.ts:184-190 | A reported code point is at least 32. |
| StdinEvents.ReportReadsBack | packages/tui/src/stdin-buffer.ts:184-190 | A key report, with or without alternates: its code point is the first number, and there is none below 32. |
| StdinEvents.OnlyReports | packages/tui/src/stdin-buffer.ts:184-190 | Nothing else has a code point. |
| StdinEvents.KeyIsNotRepeated | packages/tui/src/stdin-buffer.ts:389-398 | A key sent both as a report, with or without alternates, and as its character is one event, the report. |
| StdinEvents.EachPieceIsEmitted | packages/tui/src/stdin-buffer.ts:389-398 | Every piece is an event of its own, in order, but a character that repeats the report right before it. |
| StdinStreams.StreamInvarianceIff | packages/tui/src/stdin-buffer.ts:287-398 | For every input, keys and pastes in any order, cut into any non-empty chunks: the events and the final state are those of one chunk if and only if no cut in key text is between two escapes and a character that makes the second one open a sequence, or inside a start marker of which something has been emitted as a key. Cuts in pastes never matter. |
| StdinStreams.KeysAndPastes | packages/tui/src/stdin-buffer.ts:287-398 | Such a stream spelled out: with no two adjacent escapes in key text and no incomplete sequence before a paste, every chunking gives the events of the keys with one event for each paste, its content, between them. |
| StdinStreams.StreamIsExpected | packages/tui/src/stdin-buffer.ts:313-376 | In one chunk the events are those for any key text before the pastes, an incomplete rest before a paste being discarded. |
| StdinStreams.EscapeBeforePaste | packages/tui/src/stdin-buffer.ts:337-351 | An input on which they differ: an escape and a paste, cut inside the start marker. |
| StdinChunks.ChunkInvarianceIff | packages/tui/src/stdin-buffer.ts:287-398 | For input without a paste start the condition is the first one alone, in terms of the split of the input before each cut. |
| StdinChunks.ArrowKeyCutInTwo | packages/tui/src/stdin-buffer.ts:207-230 | Two escapes and the rest of an arrow key: as two chunks three events (two escapes, a bracket, a letter), as one chunk an escape and the key. |
| StdinChunks.ChunkInvariance | packages/tui/src/stdin-buffer.ts:287-398 | One half of that: chunks with good cuts lead to the same events and the same final state as one chunk, by composing the split over any number of parts. |
| StdinChunks.NoAdjacentEscapesIsGood | packages/tui/src/stdin-buffer.ts:207-230 | Input in which no two escapes are adjacent has good cuts only. |
| StdinChunks.OneCutIff | packages/tui/src/stdin-buffer.ts:207-230 | For a single cut the condition in terms of the two parts: the events differ from those of the uncut input if and only if the first part ends between two escapes and the second one starts with what the second escape opens. |
| StdinChunks.BracketedPaste | packages/tui/src/stdin-buffer.ts:313-376 | However a bracketed paste is cut, also inside its markers, it is exactly one paste event with the content, for any content without the end marker, and nothing is left over. |
| StdinChunks.EndMarkerFound | packages/tui/src/stdin-buffer.ts:319-321 | The end marker is found where it was put and not before all of it has arrived. |
| Ansi.RoundTrip | packages/tui/src/utils.ts:558-576 | For every proper style, feeding the codes written for it to a cleared tracker restores exactly that style: flags, palette and RGB colours, hyperlink with parameters, URL and terminator. |
| Ansi.ActiveCodesRestore | packages/tui/src/utils.ts:404-576 | The same for the style reached by any sequence of codes at all. |
| Ansi.ApplyAllKeepsProper | packages/tui/src/utils.ts:404-536 | Every style that codes can lead to is proper. |
| Ansi.AnsiCodeTracker.Process | packages/tui/src/utils.ts:404-536 | The tracker's fields after a code are the style the semantics gives, for SGR and OSC 8 and malformed codes alike. |
| Ansi.AnsiCodeTracker.ProcessParams | packages/tui/src/utils.ts:430-535 | The parameter loop, colours taking three or five parameters, computes the fold of the attribute codes. |
| Ansi.AnsiCodeTracker.SetStandard | packages/tui/src/utils.ts:463-534 | One attribute code, over all codes, changes what the table says and nothing else. |
| AnsiTable.FlagTable | packages/tui/src/utils.ts:464-516 | For every style: 1-5 and 7-9 set exactly their attribute, 21-25 and 27-29 clear exactly theirs, and nothing else changes. A number may be written with leading zeros. |
| AnsiTable.ColorTable | packages/tui/src/utils.ts:464-533 | For every style: 0 clears attributes and colours and keeps the link; 39 clears the foreground only and 49 the background only; 30-37 and 90-97 set the foreground only and 40-47 and 100-107 the background only, to that number; every other number changes nothing. |
| AnsiTable.PaletteColor | packages/tui/src/utils.ts:436-449 | `38;5;n` and `48;5;n` set one colour to that text and nothing else, and what follows them acts as it does alone. |
| AnsiTable.RgbColor | packages/tui/src/utils.ts:450-461 | The same for `38;2;r;g;b` and `48;2;r;g;b`. |
| AnsiTable.CodesOneByOne | packages/tui/src/utils.ts:430-435 | A list of codes acts as its first code and then the rest, each as it does alone, unless the first one takes what follows as its colour. |
| AnsiTable.NoParameter | packages/tui/src/utils.ts:423-428 | No parameter is a reset that keeps the link. |
| AnsiTable.EmptyParameter | packages/tui/src/utils.ts:430-435 | An empty parameter before others changes nothing. |
| AnsiTable.LinkTable | packages/tui/src/utils.ts:404-413 | OSC 8 with a URL opens that link, with an empty one ends it, and changes nothing else. |
| AnsiTable.OtherCodes | packages/tui/src/utils.ts:415-421 | Codes of other kinds, and parameters with other characters, change nothing. |
| AnsiTable.LineEndCloses | packages/tui/src/utils.ts:600-609 | What is put at the end of a line ends underline and link, and nothing else. |
| Ansi.AnsiCodeTracker.ResetAttributes | packages/tui/src/utils.ts:538-551 | An SGR reset ends attributes and colours but not the hyperlink. |
| Ansi.AnsiCodeTracker.Clear | packages/tui/src/utils.ts:553-556 | Clearing also ends the hyperlink. |
| Ansi.Numeral | packages/tui/src/utils.ts:523-532 | Colour codes written as text read back as the same number. |
| StyledText.Restored | packages/tui/src/utils.ts:558-576 | A line that starts with the codes written for a style reads, from the plain style, as the line without them reads from that style. |
| StyledText.DroppedKeepsInk | packages/tui/src/utils.ts:740-819 | If only blanks were dropped, the non-blank graphemes are the same, in order and with their styles. |
| StyledText.TrimDropsBlanks | packages/tui/src/utils.ts:817-818 | Trimming the end of a line drops blanks only and never widens it. |
| Wrap.SplitIntoTokens | packages/tui/src/utils.ts:628-702 | The splitting loop computes the tokens that `TokensOf` gives for the text. |
| Wrap.TokensOfText | packages/tui/src/utils.ts:628-705 | The tokens put together are the text, for every text with a grapheme in it; each is of one kind and holds a grapheme, and two neighbours differ in kind unless they are CJK graphemes. |
| Wrap.CodesGoWithGraphemes | packages/tui/src/utils.ts:650-700 | A token ends with a grapheme, so that codes go with the grapheme after them, but for the codes at the end of the text; and a CJK grapheme is a token of its own. |
| Wrap.BreakLongWord | packages/tui/src/utils.ts:837-904 | The breaking loop computes the pieces that `PiecesOf` gives for the word and the tracker's style, and leaves the tracker in the style after the word. |
| Wrap.PiecesKeep | packages/tui/src/utils.ts:837-904 | Those pieces read, each from the plain style, exactly as the word does from the style before it, with nothing left out; if no grapheme is wider than `width` every piece fits, and if each also takes a column the last one is not empty. |
| WrapFill.WordIsCut | packages/tui/src/utils.ts:865-893 | For every word, width and style: the word is cut only before a grapheme that would not fit on the piece, and before each of those; each piece holds its part of the word between the codes for the style in force and those that end a line. |
| Wrap.WrapToken | packages/tui/src/utils.ts:757-810 | One step of the loop in place is one step of the wrapper `WrapOne`: a long word is broken, a token that does not fit starts a line, any other is appended. |
| Wrap.WrapOneKeeps | packages/tui/src/utils.ts:757-810 | Such a step loses nothing but blanks, for every token, and the tracker stays in the style of the text. |
| Wrap.WrapTokens | packages/tui/src/utils.ts:750-810 | The loop over all tokens writes the lines that `WrapAll` gives. |
| Wrap.WrapSingleLine | packages/tui/src/utils.ts:740-819 | A line that fits is left alone; else the lines read as the line with only blanks dropped. If no grapheme is wider than `width`, every line fits once the blanks and codes at its end are left out, and all lines fit exactly if wrapping never overflows; it never does if every grapheme also takes a column and plain spaces are the only blanks. |
| Wrap.WrapLineKeeps | packages/tui/src/utils.ts:740-819 | The same of the specification function `WrapLine`, for every line and width. |
| WrapFill.LineIsFilled | packages/tui/src/utils.ts:740-819 | Lines are filled, for every line that is wrapped: its text is divided, from its beginning to its end, among the lines of the result; a line ends only before a long word, before a grapheme of a long word that would not fit, or before another token that would not fit (its columns before trimming and the token's exceed `width`); it goes on over every token and grapheme that fits; blanks at a break are left out at the start of the next line; and the text of each line is given: its part behind the codes for the style in force, trimmed, and what ends a line. |
| Wrap.WrapTight | packages/tui/src/utils.ts:757-810 | The exact condition over the tokens: the lines written fit, once trimmed, if and only if at no token before did a long word end a current line already too wide in a style (underline or link) that has to be closed at the end of a line. |
| Wrap.RegularIsSafe | packages/tui/src/utils.ts:757-810 | Text whose graphemes take 1 to `width` columns and whose only blanks are plain spaces never comes to that. |
| Wrap.TooWideLine | packages/tui/src/utils.ts:762-770 | The documented bound is false with other blanks: an underlined word as wide as the line, a space, blanks that are not plain spaces and wider than the line, and bold spaces give a line as wide as those blanks, for every width. |
| Wrap.TabsAreTooWide | packages/tui/src/utils.ts:707-709 | Such an input: three letters, a space, two tabs and four spaces wrapped to three columns give a line of six. |
| Wrap.WrapTextWithAnsi | packages/tui/src/utils.ts:715-738 | For a text of several lines: read each from the plain style, the result is the text's graphemes with their styles and links, only blanks dropped. If no grapheme is wider than `width`, every line fits once blanks and codes at its end are left out, and all lines fit if and only if wrapping none of the text's lines, each behind the codes for the style in force, overflows. |
| WrapFill.TextIsFilled | packages/tui/src/utils.ts:715-738 | The same for a text: the result is the lines of each of its lines, filled, behind the codes for the style in force there. |
| Wrap.WrappingKeepsInk | packages/tui/src/utils.ts:715-738 | In particular the non-blank graphemes are exactly the text's, in order and with their styles, whatever the width. |
| Wrap.UpdateTracker | packages/tui/src/utils.ts:612-623 | Feeding a text's codes to the tracker leaves it in the style in force after the text. |
| Composite.CompositeLineAt | packages/tui/src/tui.ts:1178-1226 | If the overlay lies inside the line the result is exactly `totalWidth` wide, so the safeguard cut never acts, and it is made of the base graphemes before the overlay, the overlay's, and the base graphemes after it, each with the style it had, padded to their own columns. The first two keep their columns; the third do if and only if no grapheme of the base straddles the column after the overlay or nothing is left there. The result is never wider than `totalWidth`. |
| Composite.PartAtColumns | packages/tui/src/utils.ts:1138-1209 | A range of a line, put where it begins, keeps all its columns if and only if no grapheme straddles its start or it is empty. |
| Composite.RangeIs | packages/tui/src/utils.ts:1138-1209 | What a range of columns holds, item by item: exactly the graphemes that begin and end in it, in order, each with the style in force at its place and the column where it begins. |
| Composite.StraddlesIs | packages/tui/src/utils.ts:1183-1200 | What straddling means, item by item. |
| Composite.WideGraphemeIsStraddled | packages/tui/src/utils.ts:1183-1200 | A line on which a column moves: a letter, a wide grapheme, a letter, under an overlay of two columns. |
| Composite.ExtractSegments | packages/tui/src/utils.ts:1138-1209 | One pass finds exactly the graphemes, with styles, that lie entirely before the overlay and entirely in the columns after it, with their widths. |
| Slices.SliceWithWidth | packages/tui/src/utils.ts:1083-1128 | A cut of a range of columns reports its width and, for every line and range, holds exactly the graphemes of the range with the styles they had if and only if reading the codes in the range before its first grapheme ahead of the codes before the range makes no difference (or the range holds no grapheme); in any case the first grapheme comes out in the style of that order. |
| Slices.SliceItem | packages/tui/src/utils.ts:1097-1125 | One item of the scan keeps that: codes are collected before and within the range until the first grapheme, then copied. |
| Slices.NothingEarly | packages/tui/src/utils.ts:1083-1128 | A cut from column 0, as the compositor and the safeguard make it, meets the condition for every line. |
| Slices.CutShowsWrongColor | packages/tui/src/utils.ts:1101-1103 | Red A, green B, cut after the A: in the line the B is green, in the cut it is red. |
| Composite.SegmentResetIsPlain | packages/tui/src/tui.ts:1178-1226 | The reset between segments ends attributes, colours and hyperlink and takes no column. |
| AgentSafety.EveryRunIsWellFormed | packages/agent/src/agent-loop.ts:95-275 | For every sequence of inputs (model events, tool completions in any order, aborts, queued messages, hooks): the trace is at every moment the start of a run that follows the event grammar, and a complete one when the run is over. The grammar fixes `agent_start`, alternating turn events, message events that never nest, updates only inside an assistant message, tool events and results. |
| AgentSafety.StepSound | packages/agent/src/agent-loop.ts:155-372 | Every step of the machine keeps the grammar invariant, stage by stage. |
| AgentSafety.ToolsSound | packages/agent/src/agent-loop.ts:433-554 | Every step of a tool batch, truncated, sequential or parallel, keeps it, whatever call is reported next. |
| AgentSafety.StartCallSound | packages/agent/src/agent-loop.ts:447-452 | A call starts only after the one before is over, or prepared in a parallel batch. |
| AgentSafety.BatchEndSound | packages/agent/src/agent-loop.ts:480-487 | A batch ends with every started call answered, covering all calls or, after an abort, the first ones. |
| AgentSafety.AbortSound | packages/agent/src/agent.ts:471-494 | An abort at any moment of a run keeps the invariant. |
| AgentEvents.EveryCallIsAnswered | packages/agent/src/agent-loop.ts:433-554 | In a complete trace the totals agree: as many ends, and as many results delivered, as starts of calls. (Totals only; the pairing call by call is `AgentCalls.EveryRunAnswersItsCalls`.) |
| AgentEvents.Balance | packages/agent/src/agent-loop.ts:433-554 | At every moment the calls started but not ended or not answered are exactly those of the turn under way. |
| AgentEvents.TurnEndCovers | packages/agent/src/agent-loop.ts:433-554 | In a trace that follows the grammar a turn ends with its results in the order of the reply's calls: of all calls, or of a non-empty first part if the abort signal was raised. That every run's turns do is `AgentCalls.EveryTurnCovers`. |
| AgentCalls.EveryRunAnswersItsCalls | packages/agent/src/agent-loop.ts:433-554 | For every run that is over and every start of a call in it: within its turn the call has exactly one end, after the start, and exactly one result message with that outcome and id, after the end and before the turn's end, which names it. Where the outcome comes from is `AgentOutcomes.EveryOutcomeHasCause`. |
| AgentOutcomes.EveryOutcomeHasCause | packages/agent/src/agent-loop.ts:433-554 | For every end of a call in every run: an input of the same batch settled the call with exactly that outcome, and a later one reported it. The call had begun to execute if and only if what settled it was its tool's return; otherwise it was refused, by its preparation (and then does not end the work), by the abort signal, or because the reply was cut off. |
| AgentOutcomes.EveryReplyIsTheModels | packages/agent/src/agent-loop.ts:277-372 | Every reply delivered in every run is the message with which the model completed a stream, taken while a request was open. |
| AgentOutcomes.EveryBatchIsInOrder | packages/agent/src/agent-loop.ts:433-554 | In every run at every moment: in a batch that is not parallel all calls but the last have ended and had their results delivered; in a parallel batch none is executed while calls are prepared, none is prepared afterwards, and no result is delivered before all have ended. |
| AgentOutcomes.StyleIsAsAsked | packages/agent/src/agent-loop.ts:411-426 | For every batch under way in every run: how it is carried out was decided when it began, cut off if the reply was, else in parallel if and only if that was asked for, and its reply is the one just delivered. |
| AgentCalls.EveryTurnCovers | packages/agent/src/agent-loop.ts:433-554 | For every run at every moment and every `turn_end` in it: the turn's calls are started, ended and answered once each, in the order of the reply; they are all calls of the reply, or the first ones if an abort was asked for, or none if the reply failed. |
| AgentCalls.EveryStartIsAnswered | packages/agent/src/agent-loop.ts:433-554 | The same pairing for every complete trace that the grammar accepts. |
| AgentEvents.UpdatesAndEndsFollowTheirStart | packages/agent/src/agent-loop.ts:666-707 | Every update and every end of a call comes after that call's start in the same turn, with no end of it in between. |
| AgentEvents.ExecutingSinceStart | packages/agent/src/agent-loop.ts:666-707 | A call that is executing was started once and has not ended since. |
| AgentEvents.CutOffCallsAreRefused | packages/agent/src/agent-loop.ts:374-406 | No call of a reply cut off by the length limit is answered with anything but the refusal. |
| AgentMirror.RecordMatchesTrace | packages/agent/src/agent.ts:529-577 | For every well-formed trace, the agent's record shows exactly the open message as streaming, and holds as pending only calls that execute (all of them if ids are distinct). |
| AgentMirror.NothingPendingAtTurnEnd | packages/agent/src/agent.ts:544-556 | In a well-formed trace, at every `turn_end` no tool call is pending and nothing is streaming. |
| AgentMirror.NothingPendingAtAnyTurnEnd | packages/agent/src/agent.ts:544-556 | So for every run and every `turn_end` in it. |
| AgentMirror.EveryRunMirrorsItsTrace | packages/agent/src/agent.ts:529-577 | In every reachable state the agent's record is the fold of its events, and its messages are the conversation plus everything delivered. |
| AgentTranscript.TranscriptAgrees | packages/agent/src/agent-loop.ts:95-143 | For every run: when it is over, the `message_end` messages in order are the returned messages, what `agent_end` announces, what the agent's messages grew by and, unless a hook replaced the context, what the loop's context grew by; before that the agent's messages have grown by exactly what was delivered. |
| AgentTranscript.RequestSeesTranscript | packages/agent/src/agent-loop.ts:196-197 | At each request to the model, everything delivered so far is stored and, unless replaced, in the context. |
| AgentTranscript.StepBooks | packages/agent/src/agent-loop.ts:155-372 | Every step keeps the ledger of delivered, stored and context messages balanced. |
| AgentTranscript.EndBatchBooks | packages/agent/src/agent-loop.ts:209-225 | The results stored after a batch are exactly those delivered. |
| AgentTranscript.StreamDoneBooks | packages/agent/src/agent-loop.ts:346-371 | The finished reply replaces its partial form in the context. |
| AgentQueues.QueuesAreConserved | packages/agent/src/agent.ts:434-469 | For every run with concurrent `steer` and `followUp`: per queue and in order, everything queued is what is in the conversation or about to be delivered followed by what is still queued; at every request and between runs nothing taken is outside the conversation. |
| AgentOutcomes.QueuesHoldWhatWasTyped | packages/agent/src/agent.ts:434-469 | For every run: what that story tells of a queue is what the user queued, each text once, in order. |
| AgentOutcomes.PromptsAreTheTexts | packages/agent/src/agent.ts:337-409 | A run that a prompt starts has the prompt's texts, in order, as its first messages. |
| AgentQueues.FollowUpsWait | packages/agent/src/agent-loop.ts:261-272 | A poll takes one message in one-at-a-time mode; follow-ups are taken only with no tool turn and no steering message to go on with, or between runs when no steering message is queued. |
| AgentQueues.StepConserves | packages/agent/src/agent-loop.ts:163-275 | Every step keeps the conservation of both queues. |
| AgentQueues.Drained | packages/agent/src/agent.ts:139-152 | Taking messages from a queue moves them to the end of the story without loss or reordering. |
| AgentTurns.TurnsAreJustified | packages/agent/src/agent-loop.ts:168-275 | For every run: after the first turn a further turn begins if and only if the last one asks for it (it has tool results, and not all of them end the work, or its reply was cut off) or there are new messages; the run stops by itself only if the last turn asks for nothing and no follow-up is queued. |
| AgentTurns.FlagIsWants | packages/agent/src/agent-loop.ts:209-225 | The flag computed from a batch is what its results say about going on. |
| AgentAborts.AbortedBatches | packages/agent/src/agent-loop.ts:433-554 | For every run and every continuation of it from an abort in a tool batch to the end of that batch: the calls that begin to execute are exactly those that were prepared when the abort came; so none does if and only if none was prepared. |
| AgentAborts.ExactlyThePreparedBegin | packages/agent/src/agent-loop.ts:433-554 | The same call by call, from any well-formed state in which the abort signal is raised. |
| AgentAborts.CallsStarted | packages/agent/src/agent-loop.ts:446-487 | The calls started by the end of such a batch are those started before the abort, or the first one if there was none, or, for a cut-off reply, all of them (they are only refused). |
| AgentAborts.StepHoldsBack | packages/agent/src/agent-loop.ts:433-554 | One step after an abort: no call becomes prepared, only a prepared one begins to execute, a prepared one stays so until it does, and the batch is left only with all its calls ended. |
| AgentAborts.PreparedCallRunsAfterAbort | packages/agent/src/agent-loop.ts:535-540 | A run from a fresh agent: a parallel batch of two calls, an abort while the second one is being prepared; the first one then begins to execute. |
| AgentAborts.FirstCallStartsAfterAbort | packages/agent/src/agent-loop.ts:446-452 | With no call started yet, the first one is started whether or not the abort signal is raised. |
| Agents.PendingMessageQueue.Drain | packages/agent/src/agent.ts:139-152 | What is drained and what stays are the old queue, as the machine's queue says; at most one message unless the mode is `all`. |
| Agents.PendingMessageQueue.Enqueue | packages/agent/src/agent.ts:131-133 | A message is added at the end. |
| Agents.PendingMessageQueue.Clear | packages/agent/src/agent.ts:154-156 | Clearing empties the queue and keeps its mode. |
| Agents.AgentObject.ProcessEvent | packages/agent/src/agent.ts:529-577 | The object's record after an event is the machine's. |
| Agents.AgentObject.Continue | packages/agent/src/agent.ts:350-377 | Refuses, resumes, or takes steering messages before follow-ups; a queue not used is left unchanged. |
| Agents.AgentObject.BeginRun | packages/agent/src/agent.ts:471-484 | A run begins streaming with nothing shown. |
| Agents.AgentObject.FinishRun | packages/agent/src/agent.ts:514-520 | Finishing a run clears the shown message and the pending calls. |
| Controller.EveryRunIsSafe | packages/imclaw/src/controller.ts:58-112 | Under every interleaving of messages, aborts, disposals, backend answers and failures, and sends: at most one activation of the draining loop, items waiting only while it is active (no lost wakeup), and a trace that never breaks the rules below; at rest every item has been taken or dropped. |
| Controller.OneCallInFlight | packages/imclaw/src/controller.ts:86-112 | At every moment of such a trace at most one backend call is in flight. |
| Controller.LeavesOnce | packages/imclaw/src/controller.ts:58-112 | Every item is taken once or dropped once, never both. |
| Controller.TakenInOrder | packages/imclaw/src/controller.ts:79-90 | Items are taken in the order in which they were queued. |
| Controller.NoReplyAfterAbort | packages/imclaw/src/controller.ts:91-110 | No reply and no error message begins for an item that was taken before an abort. |
| Controller.NothingOldAfterAbort | packages/imclaw/src/controller.ts:58-67 | An item that was waiting when an abort came is never taken. |
| Controller.EveryCallIsItsMessage | packages/imclaw/src/controller.ts:79-95 | In every run the line holds, in order, the messages that have not left it, and the item with number `i` that the backend works on is the `i`th message that arrived. |
| Controller.StepSafe | packages/imclaw/src/controller.ts:58-112 | Every step keeps the invariant. |
| Controller.Chunked | packages/imclaw/src/controller.ts:114-118 | The messages a reply is cut into are the reply together, none empty or longer than the limit, as few as possible. |
| Controller.ChatQueue.Enqueue | packages/imclaw/src/controller.ts:79-84 | If the draining loop is active the item is put at the end of the line and nothing is called; if the chat is idle the backend is called for that very item at once. |
| Controller.ChatQueue.Resume | packages/imclaw/src/controller.ts:86-91 | The loop head takes the first item and calls the backend for it, or marks the queue idle. |
| Controller.ChatQueue.AfterBackend | packages/imclaw/src/controller.ts:92-99 | A reply is sent, whole and in order, exactly if no abort came since the item was taken; a new session gets its one message. If nothing is sent, the backend is called for the next item in line, if there is one. |
| Controller.ChatQueue.AfterError | packages/imclaw/src/controller.ts:100-109 | An error message is sent exactly if no abort came since the item was taken; else the backend is called for the next item in line, if there is one. |
| Controller.ChatQueue.AbortChat | packages/imclaw/src/controller.ts:58-67 | An abort empties the line and raises the epoch, which silences what is under way, and leaves the loop running. |
| Controller.ChatQueue.Dispose | packages/imclaw/src/controller.ts:74-77 | Disposal empties the line and changes nothing else. |
| Framing.ChunkingIsInvisible | packages/server/src/rpc-process.ts:65-78 | However a stream is cut into chunks, the lines found and the unfinished rest are those of the whole. |
| Framing.LinesAppend | packages/server/src/rpc-process.ts:65-78 | Splitting once more text has arrived continues from the unfinished line. |
| Framing.FirstLine | packages/server/src/rpc-process.ts:67-73 | The first line feed ends the first line. |
| Framing.TrimStrips | packages/server/src/rpc-process.ts:72 | Trimming takes off the white space at both ends, all of it, and nothing else. |
| RpcProcess.EveryRequestIsAccounted | packages/server/src/rpc-process.ts:63-159 | With distinct request ids, under every order of requests, responses, write failures, disposal and exit: a request is pending exactly while it is sent and unsettled, and after exit the table is empty and every request is settled. |
| RpcProcess.StepKeepsIff | packages/server/src/rpc-process.ts:101-159 | The exact condition for one step: the id is not pending already, and a failed write does not belong to a request whose id is now pending for another. |
| RpcProcess.ReusedIdIsLost | packages/server/src/rpc-process.ts:147-158 | A reused id orphans the first request: not even the exit settles it. |
| RpcProcess.OutcomesAreFinal | packages/server/src/rpc-process.ts:101-159 | An outcome never changes, and after exit no request is added and the table stays empty, with no hypothesis on the ids. |
| RpcProcess.EveryOutcomeHasCause | packages/server/src/rpc-process.ts:101-158 | For every outcome in every run: the request is resolved only by the response with its id, with that payload, while it was pending; and rejected only because its own write failed, or by an exit or a disposal while it was pending. |
| RpcProcess.FailuresReject | packages/server/src/rpc-process.ts:130-158 | The other way about: a failed write rejects its request if it is unsettled and no other, and an exit and a disposal reject every request that is pending. |
| RpcProcess.ResponseSettles | packages/server/src/rpc-process.ts:101-115 | A response settles exactly the request it names, with its payload. |
| RpcProcess.ChunksDoNotMatter | packages/server/src/rpc-process.ts:65-78 | What is done depends on the standard output as a whole, not on its chunking. |
| RpcProcess.Instance.OnData | packages/server/src/rpc-process.ts:65-78 | The framing loop handles exactly the complete, trimmed, non-blank lines and keeps the rest. |
| RpcProcess.Instance.HandleLine | packages/server/src/rpc-process.ts:101-128 | A response resolves the pending request with its id; other lines settle nothing. |
| RpcProcess.Instance.RejectAllPending | packages/server/src/rpc-process.ts:130-135 | The loop over the table rejects every pending request and empties it. |
| RpcProcess.Instance.SendRequest | packages/server/src/rpc-process.ts:143-151 | Refused after exit; else the request is pending under its id. |
| RpcProcess.Instance.WriteError | packages/server/src/rpc-process.ts:152-158 | A failed write takes the id out of the table and rejects the request, unless it has settled already; no other promise changes. |
| RpcProcess.Instance.OnExit | packages/server/src/rpc-process.ts:85-98 | Exit rejects every pending request for good. |
| RpcProcess.Instance.DisposeProcess | packages/server/src/rpc-process.ts:186-196 | Disposal rejects what is pending and asks for the kill unless the process has exited. |
| Proxy.BlocksAreIndependent | packages/agent/src/proxy.ts:238-348 | For every stream: it is read without an error if and only if the events of each index fit together by themselves, and then each block is the fold of that index's own events. |
| Proxy.RebuiltAsSent | packages/agent/src/proxy.ts:183-207 | For every interleaving of well-formed blocks the client ends with the blocks the server had. |
| Proxy.EventsCommute | packages/agent/src/proxy.ts:238-348 | Events at different indices commute: accepted or refused alike, same message, same events passed on. |
| Proxy.TextIsItsDeltas | packages/agent/src/proxy.ts:246-263 | A text block is the concatenation of its deltas since its last start, whatever was there before. |
| Proxy.ThinkingIsItsDeltas | packages/agent/src/proxy.ts:278-295 | The same for thinking. |
| Proxy.ToolCallIsItsDeltas | packages/agent/src/proxy.ts:310-334 | A call's partial JSON is the concatenation of its deltas and its arguments are the parse of that. |
| Proxy.PartialIsItsDeltasIff | packages/agent/src/proxy.ts:310-346 | For every list of deltas and ends after a call's start: there is a partial JSON unless the last event is an end, and it is the concatenation of all deltas since the start if and only if no end precedes a delta or the deltas before the last end spell the word `undefined`. |
| Proxy.PartialOfTail | packages/agent/src/proxy.ts:310-346 | What it is in every case: the deltas so far; after an end, nothing; and after that, the word `undefined` followed by the deltas since the last end. |
| Proxy.EndsCarryTheWhole | packages/agent/src/proxy.ts:264-348 | An end event passes on the whole text, or the whole call without its partial JSON. |
| Proxy.EveryEventIsPassedOn | packages/agent/src/proxy.ts:238-361 | In a stream read without an error every event is passed on once, in order, an end with the whole block; only the end of a call at an index without a call may be left out. |
| Proxy.MisfitsFail | packages/agent/src/proxy.ts:246-336 | Reading fails exactly on a delta or an end that meets a block of another kind, with the message for that event, and changes nothing then. |
| Proxy.EndIsKept | packages/agent/src/proxy.ts:350-359 | For every stream: the last `done` or `error` decides the stop reason and the usage; an error sets the error message, and `done` leaves it as it was. |
| Proxy.NoEndLeavesIt | packages/agent/src/proxy.ts:121-137 | Before any of these the stop reason is `stop`, with no error message and no usage. |
| Proxy.LateDeltaIsSpoiled | packages/agent/src/proxy.ts:320-346 | Such a stream: a call, its end, one more delta. The partial JSON is the word `undefined` and the delta. |
| Proxy.ProxyStream.ProcessProxyEvent | packages/agent/src/proxy.ts:238-361 | The message changed in place is the one the specification gives, errors included. |
| Proxy.ProxyStream.OnChunk | packages/agent/src/proxy.ts:183-207 | The complete lines of what has arrived are processed until one fails; the unfinished line is kept. |
| Proxy.ChunksDoNotMatter | packages/agent/src/proxy.ts:183-207 | The message depends on the stream as a whole, not on its chunking. |
| Proxy.StreamIsRead | packages/agent/src/proxy.ts:183-207 | The events read from payloads sent one after the other, each behind `data: ` and before an empty line, are those payloads decoded, in order. |
| Proxy.FailureIsFinal | packages/agent/src/proxy.ts:211-221 | After a failure nothing more is read. |
| Fuzzy.GreedyIsComplete | packages/tui/src/fuzzy.ts:16-70 | Taking each character as early as possible finds a match if and only if the query is a subsequence of the text. |
| Fuzzy.EarliestIsLeast | packages/tui/src/fuzzy.ts:30-58 | No other way to spell the query comes earlier at any of its places. |
| Fuzzy.EarliestSpells | packages/tui/src/fuzzy.ts:30-58 | The places found spell the query, in order. |
| Fuzzy.MatchQuery | packages/tui/src/fuzzy.ts:16-70 | The scan reports a match if and only if the query is a subsequence, and scores exactly its earliest places. |
| Fuzzy.Award | packages/tui/src/fuzzy.ts:31-57 | The loop's running score is that of the places matched so far, run and all. |
| Fuzzy.RunIs | packages/tui/src/fuzzy.ts:36-44 | What the length of a run means: the last matches are neighbours, that many times, and before them is a gap; a run from the start of the text counts its first match too. |
| Fuzzy.BoundaryIsWorthTen | packages/tui/src/fuzzy.ts:32-51 | A match at the start of a word is better by 10 than the same match within a word. |
| Fuzzy.RunBeatsGap | packages/tui/src/fuzzy.ts:35-46 | A match that goes on with a run of n is better than the same match after a gap by 5n and 2 for each place of the gap, so by at least 7. |
| Fuzzy.GapCostsTwo | packages/tui/src/fuzzy.ts:41-45 | Of two matches after a gap the one with the wider gap is worse by 2 for each further place. |
| Fuzzy.FirstMatch | packages/tui/src/fuzzy.ts:32-54 | The first match costs a tenth of its place; it is better by 10 at the start of a word, and by 15 at the start of the text. |
| Fuzzy.PrefixScore | packages/tui/src/fuzzy.ts:27-70 | For every word that a text starts with, the score in closed form; being the whole text is worth 100. |
| Fuzzy.FuzzyMatch | packages/tui/src/fuzzy.ts:12-92 | A match if and only if the lower-cased query, or its letter and digit swapped form, is a subsequence of the lower-cased text; the swapped form costs 5. |
| Fuzzy.SwapCostsFive | packages/tui/src/fuzzy.ts:71-92 | The swapped form counts only if the query itself does not match, and costs 5. |
| Fuzzy.SwappedIff | packages/tui/src/fuzzy.ts:77-85 | A query has a swapped form if and only if it is letters then digits, or digits then letters, both non-empty, and the form is the two parts in the other order. |
| Fuzzy.SwapTwice | packages/tui/src/fuzzy.ts:77-85 | Swapping twice gives the query back. |
| Fuzzy.MatchTokens | packages/tui/src/fuzzy.ts:119-130 | The token loop, which stops at the first failure, scores a text by all tokens. |
| Fuzzy.ScoresAddUp | packages/tui/src/fuzzy.ts:119-131 | The scores of the tokens add up however they are grouped, and one token that fails fails the text. |
| Fuzzy.TokensSplit | packages/tui/src/fuzzy.ts:104-111 | The tokens are what stands between white space and slashes: a query without these is one token, and the tokens on both sides of a separator are those of the two sides. |
| Fuzzy.FuzzyFilter | packages/tui/src/fuzzy.ts:99-137 | With no token the list is returned unchanged; else the hits, sorted. |
| Fuzzy.FilterIsExact | packages/tui/src/fuzzy.ts:99-137 | The result holds exactly the items every token matches, in non-decreasing total score. |
| Fuzzy.SortIsStable | packages/tui/src/fuzzy.ts:135-136 | Sorting by score keeps every hit and the order of hits of equal score. |

## Left out

- Kitty image lines, Termux height changes, crash and debug logging, and render throttling in `tui.ts`.
- Renderer.Tui.DoRender: assumes every line fits the terminal width; the error raised for a wider line is not modelled, nor is a resize to another size and back between two renders.
- Renderer.Tui.Resize: assumes that the terminal is clean again if it is resized before the first render.
- Renderer.Finish: recognising the marker inside a line's text and computing its column are given with the line.
- Timeout flush, conversion of single high bytes and empty chunks in `stdin-buffer.ts`; the incomplete rest before a paste start is discarded as the source does.
- Extraction of codes from strings (`extractAnsiCode`): a line is given as codes and graphemes; an unterminated code does not arise. Splitting a text at line feeds is given too.
- Wrap.WrapTextWithAnsi: says nothing about the widths of lines if a grapheme is wider than `width`, which no wrapping can fit.
- Slices.SliceWithWidth: only the strict mode, which every caller in the repository uses, in which a grapheme that sticks out of the range is left out.
- Composite.CompositeLineAt: for an overlay that reaches beyond the line only the width bound is stated.
- Image lines in `compositeLineAt`, truncation and background filling in `utils.ts`.
- AgentLoop.Step: the nested loops of `runLoop` are modelled as one machine on values, because tools, the model and the user act at every await; one step stands for the code between two awaits. The update in place and the aliasing of message arrays are not captured.
- AgentSafety.EveryRunIsWellFormed: a run that fails with an exception (`handleRunFailure`), and clearing or resetting queues and messages, are not among the inputs.
- AgentTranscript.TranscriptAgrees: after a hook replaced the context, nothing is said about the context.
- The text of the refusal of a call whose reply was cut off is abbreviated.
- Choice between sequential and parallel execution, argument validation and the hooks around a tool are inputs; their results are not computed.
- Controller.NoReplyAfterAbort: chunks of a reply that has begun before an abort are still sent, as in the source; commands other than new session, prompt and abort, and the owner check, are left out.
- Controller.EveryRunIsSafe: one chat; chats share nothing but the map of queues.
- RpcProcess.Instance.OnData: a line that does not parse ends the process in the source and is not modelled; user-interface requests and event listeners are only told apart from responses.
- Proxy.ProxyStream.OnChunk: HTTP, decoding of bytes, abort handling and the error event pushed after a failure.
- Proxy.EventsCommute: says nothing about which of two errors is reported.
- Fuzzy.FuzzyFilter: the built-in sort is modelled by its specification, a stable sort by score.
- Key tables, key bindings, autocompletion, configuration, migrations, model catalogues and other process plumbing: single branches and tables.
