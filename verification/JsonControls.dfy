/** Escaping the raw control characters models place inside JSON strings. Section 7 of RFC 8259 forbids
    them there; outside strings they are whitespace and stay. */
module JsonControls {
  /** Where the scanner is: inside a string, and right after a backslash that escapes what follows. */
  datatype State = State(inString: bool, escaped: bool)

  const START := State(false, false)

  predicate IsControl(c: char) {
    c == '\n' || c == '\r' || c == '\t'
  }

  function Letter(c: char): char
    requires IsControl(c)
  {
    if c == '\n' then 'n' else if c == '\r' then 'r' else 't'
  }

  function Next(state: State, c: char): State {
    if state.inString && IsControl(c) then State(true, false)
    else if state.escaped then State(state.inString, false)
    else if c == '\\' && state.inString then State(true, true)
    else if c == '"' then State(!state.inString, false)
    else State(state.inString, false)
  }

  function After(source: string): State {
    if source == "" then START else Next(After(source[..|source| - 1]), source[|source| - 1])
  }

  function Piece(state: State, c: char): string {
    if state.inString && IsControl(c) then ['\\', Letter(c)] else [c]
  }

  function Escaped(source: string): string {
    if source == "" then ""
    else Escaped(source[..|source| - 1]) + Piece(After(source[..|source| - 1]), source[|source| - 1])
  }

  method EscapeJsonStringControls(source: string) returns (output: string)
    ensures output == Escaped(source)
  {
    output := "";
    var inString, escaped := false, false;
    for i := 0 to |source|
      invariant output == Escaped(source[..i])
      invariant State(inString, escaped) == After(source[..i])
    {
      assert source[..i + 1][..i] == source[..i];
      var character := source[i];
      if inString && IsControl(character) {
        output := output + ['\\', Letter(character)];
        escaped := false;
        continue;
      }
      output := output + [character];
      if escaped {
        escaped := false;
      } else if character == '\\' && inString {
        escaped := true;
      } else if character == '"' {
        inString := !inString;
      }
    }
    assert source[..|source|] == source;
  }

  // -- what escaping guarantees --------------------------------------------------------------

  lemma AfterAppend(source: string, c: char)
    ensures After(source + [c]) == Next(After(source), c)
  {
  }

  lemma EscapedAppend(source: string, c: char)
    ensures Escaped(source + [c]) == Escaped(source) + Piece(After(source), c)
  {
  }

  /** No character inside a string is a raw control. */
  predicate Clean(source: string) {
    forall i :: 0 <= i < |source| && (source[i] == '\n' || source[i] == '\r' || source[i] == '\t') ==>
      !After(source[..i]).inString
  }

  lemma CleanAppend(source: string, c: char)
    requires Clean(source) && (IsControl(c) ==> !After(source).inString)
    ensures Clean(source + [c])
  {
    forall i | 0 <= i < |source + [c]| && IsControl((source + [c])[i]) ensures !After((source + [c])[..i]).inString {
      assert (source + [c])[..i] == source[..i];
      assert source[..|source|] == source;
    }
  }

  /** The output has no raw control inside a string, and the scanner ends on it as on the input. */
  lemma {:induction false} EscapedIsClean(source: string)
    ensures Clean(Escaped(source)) && After(Escaped(source)) == After(source)
  {
    if source != "" {
      var init, c := source[..|source| - 1], source[|source| - 1];
      EscapedIsClean(init);
      var out := Escaped(init);
      if After(init).inString && IsControl(c) {
        CleanAppend(out, '\\');
        AfterAppend(out, '\\');
        CleanAppend(out + ['\\'], Letter(c));
        AfterAppend(out + ['\\'], Letter(c));
        assert out + ['\\', Letter(c)] == out + ['\\'] + [Letter(c)];
      } else {
        CleanAppend(out, c);
        AfterAppend(out, c);
      }
    }
  }

  /** Text is left alone exactly when it is clean, so a second pass changes nothing. */
  lemma {:induction false} CleanIsFixed(source: string)
    ensures Clean(source) <==> Escaped(source) == source
    ensures |Escaped(source)| >= |source|
  {
    if source != "" {
      var init, c := source[..|source| - 1], source[|source| - 1];
      CleanIsFixed(init);
      assert source == init + [c];
      assert Clean(source) ==> Clean(init) by {
        if Clean(source) {
          forall i | 0 <= i < |init| && IsControl(init[i]) ensures !After(init[..i]).inString {
            assert init[..i] == source[..i] && init[i] == source[i];
          }
        }
      }
      if Clean(init) && !(After(init).inString && IsControl(c)) {
        CleanAppend(init, c);
      }
      if Escaped(source) == source {
        assert |Escaped(init)| == |init|;
        assert Escaped(init) == Escaped(source)[..|init|];
      }
    }
  }

  lemma EscapingTwice(source: string)
    ensures Escaped(Escaped(source)) == Escaped(source)
  {
    EscapedIsClean(source);
    CleanIsFixed(Escaped(source));
  }

  // -- what a lenient reader makes of it -----------------------------------------------------

  /** A character as it stands, or an escape that is not one of the three above. */
  datatype Token = Plain(c: char) | Pair(c: char)

  function Meaning(c: char): Token {
    if c == 'n' then Plain('\n') else if c == 'r' then Plain('\r') else if c == 't' then Plain('\t') else Pair(c)
  }

  function Read(state: State, c: char): seq<Token> {
    if state.escaped then [Meaning(c)]
    else if c == '\\' && state.inString then []
    else [Plain(c)]
  }

  /** The contents, reading a raw control in a string as itself. */
  function Contents(source: string): seq<Token> {
    if source == "" then []
    else Contents(source[..|source| - 1]) + Read(After(source[..|source| - 1]), source[|source| - 1])
  }

  lemma ContentsAppend(source: string, c: char)
    ensures Contents(source + [c]) == Contents(source) + Read(After(source), c)
  {
  }

  /** How many raw controls follow a backslash that escapes nothing before them. */
  function Dangling(source: string): nat {
    if source == "" then 0
    else
      var init, c := source[..|source| - 1], source[|source| - 1];
      Dangling(init) + if After(init).escaped && IsControl(c) then 1 else 0
  }

  lemma {:induction false} EscapedOnlyInStrings(source: string)
    ensures After(source).escaped ==> After(source).inString
  {
  }

  /** What the reader makes of the piece written for one character. */
  function ReadPiece(state: State, c: char): seq<Token> {
    if state.inString && IsControl(c) then
      if state.escaped then [Pair('\\'), Plain(Letter(c))] else [Plain(c)]
    else Read(state, c)
  }

  lemma PieceIsRead(out: string, c: char)
    ensures Contents(out + Piece(After(out), c)) == Contents(out) + ReadPiece(After(out), c)
  {
    hide Contents, After;
    if After(out).inString && IsControl(c) {
      var between := out + ['\\'];
      ContentsAppend(out, '\\');
      AfterAppend(out, '\\');
      ContentsAppend(between, Letter(c));
      assert out + ['\\', Letter(c)] == between + [Letter(c)];
      assert Contents(between + [Letter(c)])
             == Contents(out) + (Read(After(out), '\\') + Read(After(between), Letter(c)));
    } else {
      ContentsAppend(out, c);
    }
  }

  lemma {:induction false} ContentsLength(source: string)
    ensures |Contents(Escaped(source))| == |Contents(source)| + Dangling(source)
    ensures Dangling(source) == 0 ==> Contents(Escaped(source)) == Contents(source)
  {
    if source != "" {
      var init, c := source[..|source| - 1], source[|source| - 1];
      ContentsLength(init);
      EscapedIsClean(init);
      EscapedOnlyInStrings(init);
      PieceIsRead(Escaped(init), c);
    }
  }

  /** Escaping loses nothing exactly when no raw control follows an unpaired backslash inside a string. */
  lemma EscapingIsLossless(source: string)
    ensures Contents(Escaped(source)) == Contents(source) <==> Dangling(source) == 0
  {
    ContentsLength(source);
  }

  /** Such a control does occur, and then its backslash comes out as one of its own. */
  lemma DanglingControlIsChanged()
    ensures Contents("\"\\\n") == [Plain('"'), Pair('\n')]
    ensures Contents(Escaped("\"\\\n")) == [Plain('"'), Pair('\\'), Plain('n')]
  {
    var quote, open, closed := "\"", "\"\\", "\"\\\n";
    assert Contents("") == [] && Escaped("") == "" && After("") == START;
    assert quote == "" + ['"'] && open == quote + ['\\'] && closed == open + ['\n'];
    hide Contents, Escaped, After;
    ContentsAppend("", '"');
    EscapedAppend("", '"');
    AfterAppend("", '"');
    ContentsAppend(quote, '\\');
    EscapedAppend(quote, '\\');
    AfterAppend(quote, '\\');
    ContentsAppend(open, '\n');
    EscapedAppend(open, '\n');
    PieceIsRead(open, '\n');
  }
}
