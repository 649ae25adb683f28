/** Main.parseInputType: a console line becomes a command (it starts with
    the "/" symbol), nothing (it is blank), or a message to send. */
module InputParsing {

  /** The chars String.trim() removes: every char up to U+0020. */
  predicate IsTrimmed(c: char)
  {
    c <= ' '
  }

  predicate IsBlank(s: string)
  {
    forall k :: 0 <= k < |s| ==> IsTrimmed(s[k])
  }

  /** The first scan of String.trim(): from st, step past trimmable chars. */
  function SkipLeading(s: string, st: nat): (r: nat)
    requires st <= |s|
    ensures st <= r <= |s|
    ensures forall k :: st <= k < r ==> IsTrimmed(s[k])
    ensures r < |s| ==> !IsTrimmed(s[r])
    decreases |s| - st
  {
    if st < |s| && IsTrimmed(s[st]) then SkipLeading(s, st + 1) else st
  }

  /** The second scan of String.trim(): from len, step back past trimmable
      chars, never below st. */
  function SkipTrailing(s: string, st: nat, len: nat): (r: nat)
    requires st <= len <= |s|
    ensures st <= r <= len
    ensures forall k :: r <= k < len ==> IsTrimmed(s[k])
    ensures st < r ==> !IsTrimmed(s[r - 1])
    decreases len
  {
    if st < len && IsTrimmed(s[len - 1]) then SkipTrailing(s, st, len - 1) else len
  }

  /** String.trim(): what is left of s once trimmable chars are removed from
      both ends. */
  function Trim(s: string): (r: string)
    ensures |r| <= |s|
    ensures r == [] <==> IsBlank(s)
    ensures r != [] ==> !IsTrimmed(r[0]) && !IsTrimmed(r[|r| - 1])
  {
    var st := SkipLeading(s, 0);
    var len := SkipTrailing(s, st, |s|);
    if st < len then
      assert s[st..len][0] == s[st] && s[st..len][len - st - 1] == s[len - 1];
      s[st..len]
    else
      s[st..len]
  }

  /** What Trim keeps is an infix of s, everything before it and everything
      after it is trimmable, and it is exactly the chars from the first
      non-trimmable char to the last one. */
  lemma TrimIsInfix(s: string)
    ensures var st := SkipLeading(s, 0); var r := Trim(s);
      st + |r| <= |s| && r == s[st..st + |r|]
      && (forall k :: 0 <= k < st ==> IsTrimmed(s[k]))
      && (forall k :: st + |r| <= k < |s| ==> IsTrimmed(s[k]))
  {
  }

  /** InputType.Command.Type; UNKNOWN's raw string is the empty string. */
  datatype CommandType = Quit | StartSenderService | StopSenderService | Unknown

  function RawString(t: CommandType): string
  {
    match t
    case Quit => "quit"
    case StartSenderService => "start-sender"
    case StopSenderService => "stop-sender"
    case Unknown => ""
  }

  /** Type.values(), in declaration order. */
  const CommandTypes: seq<CommandType> := [Quit, StartSenderService, StopSenderService, Unknown]

  const StartSymbol: string := "/"

  /** InputType: SendMessage, Command or the None singleton. */
  datatype InputType = SendMessage(message: string) | Command(kind: CommandType) | None

  /** The index of the first type whose raw string equals text, or |types|
      when there is none. */
  function FirstMatch(text: string, types: seq<CommandType>): (i: nat)
    ensures i <= |types|
    ensures i < |types| ==> RawString(types[i]) == text
    ensures forall j :: 0 <= j < i ==> RawString(types[j]) != text
  {
    if types == [] then 0
    else if RawString(types[0]) == text then 0
    else 1 + FirstMatch(text, types[1..])
  }

  /** Raw strings are pairwise distinct, so the first match is the only
      one, and the fallback UNKNOWN is reached exactly when no other type
      matches. */
  lemma ClassifyByFirstMatch(text: string, i: nat)
    requires i == FirstMatch(text, CommandTypes)
    ensures var k := if i < |CommandTypes| then CommandTypes[i] else Unknown;
      (forall t :: t != Unknown ==> (k == t <==> RawString(t) == text))
      && (k == Unknown <==> forall t :: t != Unknown ==> RawString(t) != text)
  {
    assert CommandTypes[0] == Quit && CommandTypes[1] == StartSenderService;
    assert CommandTypes[2] == StopSenderService && CommandTypes[3] == Unknown;
  }

  predicate StartsWithSymbol(input: string)
  {
    |StartSymbol| <= |input| && input[..|StartSymbol|] == StartSymbol
  }

  /** The trimmed text after the start symbol. */
  function CommandText(input: string): string
    requires StartsWithSymbol(input)
  {
    Trim(input[|StartSymbol|..])
  }

  function ParseInputType(input: string): (r: InputType)
    ensures r.Command? <==> StartsWithSymbol(input)
    ensures StartsWithSymbol(input) ==> forall t :: t != Unknown ==>
      (r == Command(t) <==> RawString(t) == CommandText(input))
    ensures StartsWithSymbol(input) ==>
      (r == Command(Unknown) <==> forall t :: t != Unknown ==> RawString(t) != CommandText(input))
    ensures r.None? <==> !StartsWithSymbol(input) && IsBlank(input)
    ensures r.SendMessage? ==> r.message == input
  {
    if StartsWithSymbol(input) then
      var text := CommandText(input);
      var i := FirstMatch(text, CommandTypes);
      ClassifyByFirstMatch(text, i);
      Command(if i < |CommandTypes| then CommandTypes[i] else Unknown)
    else if Trim(input) == [] then
      None
    else
      SendMessage(input)
  }

  /** Trimming twice trims nothing more. */
  lemma TrimIdempotent(s: string)
    ensures Trim(Trim(s)) == Trim(s)
  {
    var r := Trim(s);
    if r != [] {
      assert SkipLeading(r, 0) == 0;
      assert SkipTrailing(r, 0, |r|) == |r|;
      assert r[0..|r|] == r;
    }
  }

  /** Blanks around the command word are trimmed away. */
  lemma ParseTrimsCommandWord()
    ensures ParseInputType("/ quit ") == Command(Quit)
  {
    var input := "/ quit ";
    var text := " quit ";
    assert input[..1] == StartSymbol;
    assert input[1..] == text;
    assert SkipLeading(text, 0) == SkipLeading(text, 1) == 1;
    assert SkipTrailing(text, 1, 6) == SkipTrailing(text, 1, 5) == 5;
    assert text[1..5] == "quit";
    assert CommandText(input) == RawString(Quit);
  }

  /** The comparison is case-sensitive. */
  lemma ParseIsCaseSensitive()
    ensures ParseInputType("/QUIT") == Command(Unknown)
  {
    var input := "/QUIT";
    assert input[..1] == StartSymbol;
    assert input[1..] == "QUIT";
    assert SkipLeading("QUIT", 0) == 0;
    assert SkipTrailing("QUIT", 0, 4) == 4;
    assert "QUIT"[0..4] == "QUIT";
    assert CommandText(input) == "QUIT";
    assert "QUIT"[0] != RawString(Quit)[0];
  }

  /** A blank before the symbol makes the line a message, sent untrimmed. */
  lemma ParseLeadingBlankIsMessage()
    ensures ParseInputType(" /quit") == SendMessage(" /quit")
  {
  }

  /** A line of blanks is InputType.None. */
  lemma ParseBlankIsNone()
    ensures ParseInputType(" \t") == None
  {
    var input := " \t";
    assert input[..1][0] != StartSymbol[0];
    assert IsTrimmed(input[0]) && IsTrimmed(input[1]);
  }

  /** A line that is the symbol followed by blanks matches UNKNOWN's own
      empty raw string in the table, before the fallback is reached. */
  lemma BlankCommandMatchesUnknownEntry(input: string)
    requires StartsWithSymbol(input) && IsBlank(input[|StartSymbol|..])
    ensures FirstMatch(CommandText(input), CommandTypes) == 3
    ensures ParseInputType(input) == Command(Unknown)
  {
    assert CommandText(input) == [];
    assert CommandTypes[3] == Unknown;
    assert RawString(CommandTypes[0]) != [] && RawString(CommandTypes[1]) != [];
    assert RawString(CommandTypes[2]) != [];
  }
}
