/** The prepare attribute's command language: printing, parsing, and the fingerprint a command requests. */
module PrepareCommand {
  import opened PreviewPolicy
  import opened F = Fingerprint

  datatype Command = Cancel | Prepare(generation: nat, width: nat, height: nat, fps: nat, enable: nat)

  datatype Result<T> = Ok(value: T) | Einval

  const MAX_COUNT := 127
  const MAX_FIELDS := 7
  const U64_LIMIT := 0x1_0000_0000_0000_0000
  const U32_MAX := 0xffff_ffff

  // ----- text -----

  /** The kernel's isspace(), which includes the no-break space of Latin-1. */
  predicate IsSpace(c: char) {
    c == ' ' || 9 <= c as int <= 13 || c as int == 160
  }

  predicate IsSeparator(c: char) {
    c == ' ' || c == '\t'
  }

  predicate IsDigit(c: char) {
    '0' <= c <= '9'
  }

  predicate AllDigits(s: string) {
    forall i :: 0 <= i < |s| ==> IsDigit(s[i])
  }

  function TrimRight(s: string): string {
    if s != "" && IsSpace(s[|s| - 1]) then TrimRight(s[..|s| - 1]) else s
  }

  function TrimLeft(s: string): string {
    if s != "" && IsSpace(s[0]) then TrimLeft(s[1..]) else s
  }

  /** strim() */
  function Trim(s: string): string {
    TrimLeft(TrimRight(s))
  }

  /** The length of the word at the start of a text. */
  function WordLength(s: string): (n: nat)
    ensures n <= |s|
    ensures forall i :: 0 <= i < n ==> !IsSeparator(s[i])
    ensures n < |s| ==> IsSeparator(s[n])
  {
    if s == "" || IsSeparator(s[0]) then 0 else 1 + WordLength(s[1..])
  }

  /** The words of a text, in order. */
  function Fields(s: string): seq<string>
    decreases |s|
  {
    if s == "" then []
    else if IsSeparator(s[0]) then Fields(s[1..])
    else [s[..WordLength(s)]] + Fields(s[WordLength(s)..])
  }

  function Value(s: string): nat
    requires AllDigits(s)
  {
    if s == "" then 0 else Value(s[..|s| - 1]) * 10 + (s[|s| - 1] as int - '0' as int)
  }

  /** An unsigned 64-bit decimal number: digits only, at least one, and in range. */
  function Number(s: string): Result<nat> {
    if s == "" || !AllDigits(s) || Value(s) >= U64_LIMIT then Einval else Ok(Value(s))
  }

  // ----- parsing -----

  /** The default table of a size; right-hand tables are chosen by the enable mask. */
  function SizeTable(width: nat, height: nat): Mode {
    if width == 2560 && height == 720 then Dual720
    else if width == 3840 && height == 1080 then Dual1080
    else if width == 1280 && height == 720 then Left720
    else if width == 1920 && height == 1080 then Left1080
    else if width == 1280 && height == 360 then Dual360
    else if width == 640 && height == 360 then Left360
    else NoMode
  }

  predicate EnableFits(m: Mode, enable: nat) {
    if IsDual(m) then enable == 3 else enable == 1 || enable == 2
  }

  /** What the checks after the tokenizer ask of the five numbers. */
  predicate Acceptable(build: Build, c: Command) {
    c.Prepare? ==>
      && 0 < c.generation < U64_LIMIT
      && c.width <= U32_MAX && c.height <= U32_MAX && c.enable <= U32_MAX
      && 1 <= c.fps <= 120
      && SizeTable(c.width, c.height) != NoMode
      && EnableFits(SizeTable(c.width, c.height), c.enable)
      && c.fps <= MaxFps(build, SizeTable(c.width, c.height))
  }

  function ParseFields(build: Build, fields: seq<string>): Result<Command> {
    if fields == ["0"] then Ok(Cancel)
    else if |fields| != 6 || fields[0] != "1" then Einval
    else if exists i :: 1 <= i < 6 && Number(fields[i]) == Einval then Einval
    else
      var c := Prepare(Number(fields[1]).value, Number(fields[2]).value, Number(fields[3]).value,
                       Number(fields[4]).value, Number(fields[5]).value);
      if Acceptable(build, c) then Ok(c) else Einval
  }

  /** max9296_parse_prepare_command() as a function. */
  function Parse(build: Build, text: string): Result<Command> {
    if text == "" || |text| > MAX_COUNT || (exists i :: 0 <= i < |text| && text[i] == '\0') then Einval
    else ParseFields(build, Fields(Trim(text)))
  }

  // ----- the loops -----

  lemma FieldsSkip(s: string, i: nat)
    requires i < |s| && IsSeparator(s[i])
    ensures Fields(s[i..]) == Fields(s[i + 1..])
  {
    assert s[i..][1..] == s[i + 1..];
  }

  lemma WordEnds(s: string, n: nat)
    requires n <= |s| && (forall i :: 0 <= i < n ==> !IsSeparator(s[i])) && (n < |s| ==> IsSeparator(s[n]))
    ensures WordLength(s) == n
  {
    var w := WordLength(s);
    assert w < |s| ==> IsSeparator(s[w]);
    assert n < |s| ==> IsSeparator(s[n]);
  }

  lemma FieldsTake(s: string, i: nat, j: nat)
    requires i < j <= |s| && (forall k :: i <= k < j ==> !IsSeparator(s[k])) && (j < |s| ==> IsSeparator(s[j]))
    ensures Fields(s[i..]) == [s[i..j]] + Fields(s[j..])
  {
    WordEnds(s[i..], j - i);
    assert s[i..][..j - i] == s[i..j] && s[i..][j - i..] == s[j..];
  }

  /** The tokenizer loop: empty tokens are skipped, and an eighth word is an error. */
  method Tokenize(s: string) returns (ok: bool, fields: seq<string>)
    ensures ok <==> |Fields(s)| <= MAX_FIELDS
    ensures ok ==> fields == Fields(s)
  {
    fields := [];
    var cursor := 0;
    assert s[0..] == s;
    while cursor < |s|
      invariant 0 <= cursor <= |s| && |fields| <= MAX_FIELDS
      invariant Fields(s) == fields + Fields(s[cursor..])
    {
      var end := cursor;
      while end < |s| && !IsSeparator(s[end])
        invariant cursor <= end <= |s|
        invariant forall k :: cursor <= k < end ==> !IsSeparator(s[k])
      {
        end := end + 1;
      }
      if end == cursor {
        FieldsSkip(s, cursor);
        cursor := cursor + 1;
      } else {
        FieldsTake(s, cursor, end);
        if |fields| == MAX_FIELDS {
          return false, fields;
        }
        fields := fields + [s[cursor..end]];
        cursor := end;
      }
    }
    ok := true;
  }

  /** The digit loop and the conversion of one field. */
  method ParseNumber(field: string) returns (r: Result<nat>)
    ensures r == Number(field)
  {
    if field == "" {
      return Einval;
    }
    for i := 0 to |field|
      invariant AllDigits(field[..i])
    {
      if !IsDigit(field[i]) {
        return Einval;
      }
      assert field[..i + 1] == field[..i] + [field[i]];
    }
    assert field[..|field|] == field;
    r := if Value(field) >= U64_LIMIT then Einval else Ok(Value(field));
  }

  /** max9296_parse_prepare_command() */
  method ParseCommand(build: Build, text: string) returns (r: Result<Command>)
    ensures r == Parse(build, text)
  {
    if text == "" || |text| > MAX_COUNT || exists i :: 0 <= i < |text| && text[i] == '\0' {
      return Einval;
    }
    var ok, fields := Tokenize(Trim(text));
    if !ok {
      return Einval;
    }
    if |fields| == 1 && fields[0] == "0" {
      return Ok(Cancel);
    }
    if |fields| != 6 || fields[0] != "1" {
      return Einval;
    }
    var values: seq<nat> := [];
    for i := 1 to 6
      invariant |values| == i - 1
      invariant forall k :: 1 <= k < i ==> Number(fields[k]) == Ok(values[k - 1])
    {
      var number := ParseNumber(fields[i]);
      if number == Einval {
        return Einval;
      }
      values := values + [number.value];
    }
    var c := Prepare(values[0], values[1], values[2], values[3], values[4]);
    if c.generation == 0 || c.width > U32_MAX || c.height > U32_MAX || c.fps > U32_MAX || c.enable > U32_MAX {
      return Einval;
    }
    if c.fps < 1 || c.fps > 120 {
      return Einval;
    }
    var table := SizeTable(c.width, c.height);
    if table == NoMode || !EnableFits(table, c.enable) || c.fps > MaxFps(build, table) {
      return Einval;
    }
    r := Ok(c);
  }

  // ----- printing -----

  function Digit(d: nat): char
    requires d < 10
  {
    ('0' as int + d) as char
  }

  function Dec(n: nat): string {
    if n < 10 then [Digit(n)] else Dec(n / 10) + [Digit(n % 10)]
  }

  function Join(words: seq<string>): string {
    if words == [] then "" else if |words| == 1 then words[0] else words[0] + " " + Join(words[1..])
  }

  /** The command in the documented syntax. */
  function Print(c: Command): string {
    match c
    case Cancel => "0"
    case Prepare(_, _, _, _, _) => Join(Words(c))
  }

  lemma {:induction false} DecIsNumber(n: nat)
    ensures Dec(n) != "" && AllDigits(Dec(n)) && Value(Dec(n)) == n
  {
    if n >= 10 {
      DecIsNumber(n / 10);
      assert Dec(n)[..|Dec(n)| - 1] == Dec(n / 10);
    }
  }

  function Pow10(k: nat): nat {
    if k == 0 then 1 else 10 * Pow10(k - 1)
  }

  lemma {:induction false} DecLength(n: nat, k: nat)
    requires k > 0 && n < Pow10(k)
    ensures |Dec(n)| <= k
  {
    if n >= 10 {
      DecLength(n / 10, k - 1);
    }
  }

  predicate IsWord(s: string) {
    s != "" && AllDigits(s)
  }

  lemma FirstField(w: string, rest: string)
    requires IsWord(w) && (rest == "" || rest[0] == ' ')
    ensures Fields(w + rest) == [w] + Fields(rest)
  {
    hide Fields;
    var s := w + rest;
    FieldsTake(s, 0, |w|);
    assert s[0..] == s && s[0..|w|] == w && s[|w|..] == rest;
  }

  lemma SkipBlank(rest: string)
    ensures Fields(" " + rest) == Fields(rest)
  {
    hide Fields;
    var s := " " + rest;
    FieldsSkip(s, 0);
    assert s[0..] == s && s[1..] == rest;
  }

  /** Splitting undoes joining. */
  lemma {:induction false} FieldsOfJoin(words: seq<string>)
    requires forall i :: 0 <= i < |words| ==> IsWord(words[i])
    ensures Fields(Join(words)) == words
    decreases |words|
  {
    if words != [] {
      hide Fields, IsWord;
      var w := words[0];
      FieldsOfJoin(words[1..]);
      if |words| == 1 {
        assert w + "" == w && words == [w] && Join(words[1..]) == "";
        FirstField(w, "");
      } else {
        var rest := " " + Join(words[1..]);
        assert Join(words) == w + rest;
        FirstField(w, rest);
        SkipBlank(Join(words[1..]));
        assert words == [w] + words[1..];
      }
    }
  }

  /** A joined line starts and ends with a digit and holds digits and spaces only. */
  lemma {:induction false} JoinIsClean(words: seq<string>)
    requires words != [] && forall i :: 0 <= i < |words| ==> IsWord(words[i])
    ensures var s := Join(words); s != "" && IsDigit(s[0]) && IsDigit(s[|s| - 1])
    ensures forall i :: 0 <= i < |Join(words)| ==> IsDigit(Join(words)[i]) || Join(words)[i] == ' '
  {
    if |words| > 1 {
      JoinIsClean(words[1..]);
    }
  }

  lemma {:induction false} JoinLength(words: seq<string>, k: nat)
    requires forall i :: 0 <= i < |words| ==> |words[i]| <= k
    ensures |Join(words)| <= |words| * (k + 1)
  {
    if words != [] {
      JoinLength(words[1..], k);
    }
  }

  lemma TrimKeeps(s: string)
    requires s != "" && IsDigit(s[0]) && IsDigit(s[|s| - 1])
    ensures Trim(s) == s
  {
  }

  /** The words of a printed command: one digit, then five numbers. */
  function Words(c: Command): (words: seq<string>)
    requires c.Prepare?
    ensures |words| == 6
  {
    ["1", Dec(c.generation), Dec(c.width), Dec(c.height), Dec(c.fps), Dec(c.enable)]
  }

  lemma WordsAreNumbers(c: Command)
    requires c.Prepare? && c.generation < U64_LIMIT && c.width < U64_LIMIT && c.height < U64_LIMIT
    requires c.fps < U64_LIMIT && c.enable < U64_LIMIT
    ensures var words := Words(c);
            && (forall i :: 0 <= i < 6 ==> IsWord(words[i]) && |words[i]| <= 20)
            && words[0] == "1"
            && Number(words[1]) == Ok(c.generation) && Number(words[2]) == Ok(c.width)
            && Number(words[3]) == Ok(c.height) && Number(words[4]) == Ok(c.fps) && Number(words[5]) == Ok(c.enable)
  {
    assert Pow10(10) == 10_000_000_000 && Pow10(15) == 1_000_000_000_000_000;
    assert Pow10(20) == 100_000_000_000_000_000_000;
    forall n: nat | n < U64_LIMIT
      ensures IsWord(Dec(n)) && |Dec(n)| <= 20 && Number(Dec(n)) == Ok(n)
    {
      DecIsNumber(n);
      DecLength(n, 20);
    }
  }

  /** A line of words is read as its words. */
  lemma JoinedReads(build: Build, words: seq<string>)
    requires 0 < |words| <= 6 && forall i :: 0 <= i < |words| ==> IsWord(words[i]) && |words[i]| <= 20
    ensures Parse(build, Join(words)) == ParseFields(build, words)
  {
    hide Fields, Trim, Join, ParseFields;
    FieldsOfJoin(words);
    JoinIsClean(words);
    JoinLength(words, 20);
    TrimKeeps(Join(words));
  }

  lemma NumbersReadBack(build: Build, c: Command, words: seq<string>)
    requires c.Prepare? && Acceptable(build, c) && |words| == 6 && words[0] == "1"
    requires Number(words[1]) == Ok(c.generation) && Number(words[2]) == Ok(c.width)
    requires Number(words[3]) == Ok(c.height) && Number(words[4]) == Ok(c.fps) && Number(words[5]) == Ok(c.enable)
    ensures ParseFields(build, words) == Ok(c)
  {
    hide Number, Acceptable;
    assert words != ["0"] by {
      assert |words| != |["0"]|;
    }
  }

  /** Printing, then parsing, gives the command back. */
  lemma PrintParses(build: Build, c: Command)
    requires Acceptable(build, c)
    ensures Parse(build, Print(c)) == Ok(c)
  {
    if c.Cancel? {
      assert Join(["0"]) == "0";
      JoinedReads(build, ["0"]);
    } else {
      hide Parse, ParseFields, Join, Number, Words, Print, IsWord;
      var words := Words(c);
      WordsAreNumbers(c);
      PrintIsJoin(c);
      JoinedReads(build, words);
      NumbersReadBack(build, c, words);
    }
  }

  lemma PrintIsJoin(c: Command)
    requires c.Prepare?
    ensures Print(c) == Join(Words(c))
  {
  }

  /** The parser accepts nothing else: whatever it returns is acceptable, and so prints and parses again. */
  lemma ParsedIsAcceptable(build: Build, text: string)
    requires Parse(build, text).Ok?
    ensures Acceptable(build, Parse(build, text).value)
    ensures Parse(build, Print(Parse(build, text).value)) == Parse(build, text)
  {
    PrintParses(build, Parse(build, text).value);
  }

  // ----- what a line means -----

  /** A text the attribute looks at. */
  predicate InLimits(text: string) {
    0 < |text| <= 127 && forall i :: 0 <= i < |text| ==> text[i] != '\0'
  }

  predicate Denotes(word: string, n: nat) {
    IsWord(word) && Value(word) == n < U64_LIMIT
  }

  /** These words ask for this command: the single word 0, or the word 1 and five decimal numbers. */
  predicate Says(words: seq<string>, c: Command) {
    match c
    case Cancel => words == ["0"]
    case Prepare(generation, width, height, fps, enable) =>
      && |words| == 6 && words[0] == "1" && Denotes(words[1], generation) && Denotes(words[2], width)
      && Denotes(words[3], height) && Denotes(words[4], fps) && Denotes(words[5], enable)
  }

  /** The parser returns a command exactly for the lines that say it, and refuses every other line. */
  lemma ParseIff(build: Build, text: string, c: Command)
    ensures Parse(build, text) == Ok(c)
            <==> InLimits(text) && Says(Fields(Trim(text)), c) && Acceptable(build, c)
  {
    hide Fields, Trim, ParseFields, Says;
    WordsSayIff(build, Fields(Trim(text)), c);
  }

  lemma WordsSayIff(build: Build, words: seq<string>, c: Command)
    ensures ParseFields(build, words) == Ok(c) <==> Says(words, c) && Acceptable(build, c)
  {
    hide SizeTable, EnableFits, Value, MaxFps;
    assert |words| == 6 ==> words != ["0"] by {
      assert |["0"]| == 1;
    }
    forall i | 1 <= i < |words|
      ensures Number(words[i]) == Einval <==> !(IsWord(words[i]) && Value(words[i]) < U64_LIMIT)
    {
    }
  }

  /** Decimal numbers are positional, whatever zeros they start with. */
  lemma {:induction false} ValueIsPositional(a: string, b: string)
    requires AllDigits(a) && AllDigits(b)
    ensures AllDigits(a + b) && Value(a + b) == Value(a) * Pow10(|b|) + Value(b)
  {
    if b == "" {
      assert a + b == a;
    } else {
      var rest, d := b[..|b| - 1], b[|b| - 1] as int - '0' as int;
      ValueIsPositional(a, rest);
      assert (a + b)[..|a + b| - 1] == a + rest;
      assert Value(a + b) == (Value(a) * Pow10(|rest|) + Value(rest)) * 10 + d;
      Distribute(Value(a), Pow10(|rest|), Value(rest));
    }
  }

  lemma Distribute(a: nat, p: nat, v: nat)
    ensures (a * p + v) * 10 == a * (10 * p) + v * 10
  {
  }

  /** The codes of white space: tab to carriage return, blank, and the no-break space. */
  const SPACES: set<int> := {9, 10, 11, 12, 13, 32, 160}

  /** Trimming takes white space off both ends and nothing else. */
  lemma {:induction false} TrimSplits(s: string) returns (left: string, right: string)
    ensures s == left + Trim(s) + right && (forall i :: 0 <= i < |left| ==> left[i] as int in SPACES)
            && (forall i :: 0 <= i < |right| ==> right[i] as int in SPACES)
    ensures Trim(s) != "" ==> Trim(s)[0] as int !in SPACES && Trim(s)[|Trim(s)| - 1] as int !in SPACES
  {
    hide TrimLeft, TrimRight, IsSpace;
    SpaceCodes();
    right := RightSplit(s);
    left := LeftSplit(TrimRight(s));
  }

  lemma SpaceCodes()
    ensures forall c: char :: IsSpace(c) <==> c as int in SPACES
  {
  }

  /** A text without its blanks and tabs. */
  function Squeezed(s: string): string {
    if s == "" then "" else (if s[0] == ' ' || s[0] == '\t' then "" else [s[0]]) + Squeezed(s[1..])
  }

  function Concat(words: seq<string>): string {
    if words == [] then "" else words[0] + Concat(words[1..])
  }

  lemma {:induction false} SqueezeWord(w: string, rest: string)
    requires forall i :: 0 <= i < |w| ==> w[i] != ' ' && w[i] != '\t'
    ensures Squeezed(w + rest) == w + Squeezed(rest)
  {
    if w == "" {
      assert w + rest == rest;
    } else {
      assert (w + rest)[1..] == w[1..] + rest;
      SqueezeWord(w[1..], rest);
      assert w == [w[0]] + w[1..];
    }
  }

  /** Splitting loses and joins nothing: no word is empty or holds a blank or a tab, and the words put together are
      the text without its blanks and tabs. */
  lemma {:induction false} FieldsLoseNothing(s: string)
    ensures forall w :: w in Fields(s) ==> w != "" && forall i :: 0 <= i < |w| ==> w[i] != ' ' && w[i] != '\t'
    ensures Concat(Fields(s)) == Squeezed(s)
    decreases |s|
  {
    if s == "" {
    } else if IsSeparator(s[0]) {
      FieldsLoseNothing(s[1..]);
    } else {
      var n := WordLength(s);
      FieldsLoseNothing(s[n..]);
      assert s == s[..n] + s[n..];
      SqueezeWord(s[..n], s[n..]);
    }
  }

  lemma {:induction false} RightSplit(s: string) returns (right: string)
    ensures s == TrimRight(s) + right && (forall i :: 0 <= i < |right| ==> IsSpace(right[i]))
    ensures TrimRight(s) != "" ==> !IsSpace(TrimRight(s)[|TrimRight(s)| - 1])
  {
    right := "";
    if s != "" && IsSpace(s[|s| - 1]) {
      right := RightSplit(s[..|s| - 1]);
      right := right + [s[|s| - 1]];
    }
  }

  lemma {:induction false} LeftSplit(s: string) returns (left: string)
    ensures s == left + TrimLeft(s) && (forall i :: 0 <= i < |left| ==> IsSpace(left[i]))
    ensures TrimLeft(s) != "" ==> !IsSpace(TrimLeft(s)[0]) && TrimLeft(s)[|TrimLeft(s)| - 1] == s[|s| - 1]
  {
    left := "";
    if s != "" && IsSpace(s[0]) {
      left := LeftSplit(s[1..]);
      left := [s[0]] + left;
    }
  }

  // ----- fingerprints -----

  function TableOf(c: Command): Mode
    requires c.Prepare?
  {
    var m := SizeTable(c.width, c.height);
    if c.enable != 2 then m
    else if m == Left720 then Right720
    else if m == Left1080 then Right1080
    else if m == Left360 then Right360
    else m
  }

  /** The fingerprint the attribute requests for a command, under the cached crop setting. */
  function Requested(c: Command, crop: bool): Fingerprint
    requires c.Prepare?
  {
    F.Fingerprint.Fingerprint(TableOf(c), c.width, c.height, UYVY, c.fps, c.enable, crop)
  }

  /** The command language and the preflight agree exactly: a fingerprint can be requested if and only if it
      passes the preflight's table, size, format, rate and topology clauses, at a rate of at most 120. */
  lemma ExpressibleIffAdmissible(build: Build, fp: Fingerprint)
    ensures (exists text :: Parse(build, text).Ok? && Parse(build, text).value.Prepare?
                            && Requested(Parse(build, text).value, fp.crop) == fp)
            <==> Admissible(build, fp) && fp.fps <= 120
  {
    hide Parse, Print;
    if Admissible(build, fp) && fp.fps <= 120 {
      var c := Prepare(1, fp.width, fp.height, fp.fps, fp.enable);
      PrintParses(build, c);
      assert Parse(build, Print(c)) == Ok(c) && Requested(c, fp.crop) == fp;
    }
    forall text | Parse(build, text).Ok? && Parse(build, text).value.Prepare?
      ensures var c := Parse(build, text).value; Admissible(build, Requested(c, fp.crop)) && c.fps <= 120
    {
      ParsedIsAcceptable(build, text);
    }
  }

  /** A build that raises the 360-line ceiling above 120 has fingerprints the preflight admits and no command can
      request. */
  lemma RaisedCeilingIsOutOfReach()
    ensures var build, fp := Build(144, 60), F.Fingerprint.Fingerprint(Left360, 640, 360, UYVY, 130, 1, false);
            && Admissible(build, fp)
            && forall text :: Parse(build, text).Ok? && Parse(build, text).value.Prepare?
                              ==> Requested(Parse(build, text).value, fp.crop) != fp
  {
    ExpressibleIffAdmissible(Build(144, 60), F.Fingerprint.Fingerprint(Left360, 640, 360, UYVY, 130, 1, false));
  }
}
