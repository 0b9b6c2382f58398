/** Line framing of a stream that arrives in chunks. */
module Framing {
  import opened Text

  /** White space as `trim` removes it. */
  predicate Blank(c: char) {
    var n := c as int;
    || 9 <= n <= 13 || n == 32 || n == 160 || n == 5760 || 8192 <= n <= 8202 || n == 8232 || n == 8233
    || n == 8239 || n == 8287 || n == 12288 || n == 65279
  }

  function TrimStart(s: string): string {
    if s != [] && Blank(s[0]) then TrimStart(s[1..]) else s
  }

  function TrimEnd(s: string): string {
    if s != [] && Blank(s[|s| - 1]) then TrimEnd(s[..|s| - 1]) else s
  }

  function Trim(s: string): string {
    TrimEnd(TrimStart(s))
  }

  predicate AllBlank(s: string) {
    forall k :: 0 <= k < |s| ==> Blank(s[k])
  }

  lemma {:induction false} TrimStartStrips(s: string) returns (a: nat)
    ensures a <= |s| && TrimStart(s) == s[a..] && AllBlank(s[..a]) && (a < |s| ==> !Blank(s[a]))
  {
    if s != [] && Blank(s[0]) {
      a := TrimStartStrips(s[1..]);
      a := a + 1;
      assert s[1..][..a - 1] == s[..a][1..] && s[1..][a - 1..] == s[a..];
    } else {
      a := 0;
    }
  }

  lemma {:induction false} TrimEndStrips(s: string) returns (b: nat)
    ensures b <= |s| && TrimEnd(s) == s[..b] && AllBlank(s[b..]) && (b > 0 ==> !Blank(s[b - 1]))
  {
    if s != [] && Blank(s[|s| - 1]) {
      b := TrimEndStrips(s[..|s| - 1]);
      assert s[b..] == s[..|s| - 1][b..] + [s[|s| - 1]];
    } else {
      b := |s|;
    }
  }

  /** Trimming takes off white space at both ends, all of it, and nothing else. */
  lemma TrimStrips(s: string) returns (a: nat, b: nat)
    ensures a <= b <= |s| && Trim(s) == s[a..b] && AllBlank(s[..a]) && AllBlank(s[b..])
    ensures a < b ==> !Blank(s[a]) && !Blank(s[b - 1])
  {
    hide Blank, TrimStart, TrimEnd;
    a := TrimStartStrips(s);
    var c := TrimEndStrips(s[a..]);
    b := a + c;
    assert s[a..][..c] == s[a..b] && s[a..][c..] == s[b..];
  }

  /** The complete lines of a text, and what follows its last line feed. */
  function Lines(text: string): (lines: seq<string>) {
    var parts := SplitOn(text, '\n');
    parts[..|parts| - 1]
  }

  function Rest(text: string): string {
    var parts := SplitOn(text, '\n');
    parts[|parts| - 1]
  }

  /** The first line feed ends the first line. */
  lemma {:induction false} FirstLine(text: string, i: nat)
    requires i < |text| && text[i] == '\n' && forall k :: 0 <= k < i ==> text[k] != '\n'
    ensures Lines(text) == [text[..i]] + Lines(text[i + 1..]) && Rest(text) == Rest(text[i + 1..])
  {
    if i == 0 {
      assert text[..0] == [];
    } else {
      FirstLine(text[1..], i - 1);
      assert text[1..][..i - 1] == text[1..i] && text[1..][i..] == text[i + 1..];
      assert text[..i] == [text[0]] + text[1..i];
    }
  }

  lemma {:induction false} NoLine(text: string)
    requires '\n' !in text
    ensures Lines(text) == [] && Rest(text) == text
  {
    if text != [] {
      NoLine(text[1..]);
    }
  }

  lemma {:induction false} RestHasNoLineFeed(text: string)
    ensures '\n' !in Rest(text)
  {
    if text != [] {
      RestHasNoLineFeed(text[1..]);
    }
  }

  function FirstLineFeed(text: string): (i: nat)
    requires '\n' in text
    ensures i < |text| && text[i] == '\n' && forall k :: 0 <= k < i ==> text[k] != '\n'
  {
    if text[0] == '\n' then 0 else FirstLineFeed(text[1..]) + 1
  }

  /** Splitting once more text has arrived continues from the unfinished line. */
  lemma {:induction false} LinesAppend(a: string, b: string)
    ensures Lines(a + b) == Lines(a) + Lines(Rest(a) + b)
    ensures Rest(a + b) == Rest(Rest(a) + b)
  {
    hide Lines, Rest;
    if '\n' in a {
      var i := FirstLineFeed(a);
      FirstLine(a, i);
      FirstLine(a + b, i);
      LinesAppend(a[i + 1..], b);
      assert (a + b)[..i] == a[..i] && (a + b)[i + 1..] == a[i + 1..] + b;
    } else {
      NoLine(a);
    }
  }

  /** What a reader has found, and still holds, after the chunks. */
  function Found(chunks: seq<string>): seq<string> {
    if chunks == [] then []
    else Found(chunks[..|chunks| - 1]) + Lines(Held(chunks[..|chunks| - 1]) + chunks[|chunks| - 1])
  }

  function Held(chunks: seq<string>): string {
    if chunks == [] then "" else Rest(Held(chunks[..|chunks| - 1]) + chunks[|chunks| - 1])
  }

  /** However the stream is cut into chunks, the lines found are those of the whole. */
  lemma {:induction false} ChunkingIsInvisible(chunks: seq<string>)
    ensures Found(chunks) == Lines(Flatten(chunks)) && Held(chunks) == Rest(Flatten(chunks))
  {
    if chunks != [] {
      var front, last := chunks[..|chunks| - 1], chunks[|chunks| - 1];
      ChunkingIsInvisible(front);
      LinesAppend(Flatten(front), last);
    }
  }
}
