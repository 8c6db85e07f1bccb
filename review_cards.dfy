/**
 * The card review tool: it lists the `.json` files of a directory and lets
 * an operator page through them with the commands n, p and q.
 */
module ReviewCards {
  import opened Wrappers
  import opened Text

  const JsonSuffix := ".json"
  const NoFilesText := "No card files found."
  const CommandsText := "\nCommands: (n)ext, (p)revious, (q)uit"

  // ---------------------------------------------------------------------------
  // Start-up

  /** `files.filter(f => f.endsWith('.json'))`: the card files, in listing order. */
  function JsonFiles(names: seq<string>): (r: seq<string>)
    ensures |r| <= |names|
    ensures forall f :: f in r <==> f in names && EndsWith(f, JsonSuffix)
  {
    if names == [] then []
    else
      assert names == [names[0]] + names[1..];
      (if EndsWith(names[0], JsonSuffix) then [names[0]] else []) + JsonFiles(names[1..])
  }

  /** Filtering keeps relative order: it distributes over concatenation. */
  lemma {:induction false} JsonFilesAppend(a: seq<string>, b: seq<string>)
    ensures JsonFiles(a + b) == JsonFiles(a) + JsonFiles(b)
  {
    if a == [] {
      assert a + b == b;
    } else {
      assert (a + b)[1..] == a[1..] + b;
      JsonFilesAppend(a[1..], b);
    }
  }

  /** Filtering a filtered list changes nothing. */
  lemma {:induction false} JsonFilesIdempotent(names: seq<string>)
    ensures JsonFiles(JsonFiles(names)) == JsonFiles(names)
  {
    if names != [] {
      var head := if EndsWith(names[0], JsonSuffix) then [names[0]] else [];
      JsonFilesAppend(head, JsonFiles(names[1..]));
      JsonFilesIdempotent(names[1..]);
    }
  }

  /** How the tool starts: exit with a status and a message, or browse the card files. */
  datatype Startup = Exit(code: nat, message: string) | Browse(files: seq<string>)

  /**
   * Start-up given the directory and its listing (absent when the directory
   * does not exist): exit 1 without a directory, exit 0 without card files,
   * otherwise browse the card files.
   */
  function Start(dir: string, listing: Option<seq<string>>): (r: Startup)
    ensures listing.None? <==> r == Exit(1, "Directory not found: " + dir)
    ensures listing.Some? && JsonFiles(listing.value) == [] ==> r == Exit(0, NoFilesText)
    ensures r.Browse? <==> listing.Some? && JsonFiles(listing.value) != []
    ensures r.Browse? ==> r.files == JsonFiles(listing.value)
  {
    match listing
    case None => Exit(1, "Directory not found: " + dir)
    case Some(names) =>
      var files := JsonFiles(names);
      if |files| == 0 then Exit(0, NoFilesText) else Browse(files)
  }

  // ---------------------------------------------------------------------------
  // Loading and showing a card

  /** The fields of a parsed card file; a field that is absent or not a string is `None`. */
  datatype CardFile = CardFile(question: Option<string>, correctAnswer: Option<string>, aiAnswer: Option<string>)

  /** The texts shown for one card. */
  datatype CardText = CardText(question: string, correctAnswer: string, aiAnswer: string)

  /**
   * `load(file)` given the parsed file, absent when reading or parsing
   * failed: each field is the file's text for it, or empty when the field is
   * missing or blank or the file could not be loaded.
   */
  function Load(parsed: Option<CardFile>): (r: CardText)
    ensures parsed.None? ==> r == CardText("", "", "")
    ensures r.question == "" <==> parsed.None? || !Truthy(parsed.value.question)
    ensures r.correctAnswer == "" <==> parsed.None? || !Truthy(parsed.value.correctAnswer)
    ensures r.aiAnswer == "" <==> parsed.None? || !Truthy(parsed.value.aiAnswer)
    ensures parsed.Some? && Truthy(parsed.value.question) ==> r.question == parsed.value.question.value
    ensures parsed.Some? && Truthy(parsed.value.correctAnswer) ==> r.correctAnswer == parsed.value.correctAnswer.value
    ensures parsed.Some? && Truthy(parsed.value.aiAnswer) ==> r.aiAnswer == parsed.value.aiAnswer.value
  {
    match parsed
    case None => CardText("", "", "")
    case Some(data) => CardText(OrEmpty(data.question), OrEmpty(data.correctAnswer), OrEmpty(data.aiAnswer))
  }

  /**
   * The header line of `show()`: `[position/count] name`. The number after
   * "[" reads back as the 1-based position `index + 1`, between 1 and the
   * count; the number after "/" reads back as the count; "] " and the file
   * name end the line.
   */
  function Header(index: nat, files: seq<string>): (h: string)
    requires index < |files|
    ensures var k := |NatToString(index + 1)|;
      && 2 + k < |h| && h[..2] == "\n[" && h[2 + k] == '/'
      && AllDigits(h[2..2 + k]) && DecimalValue(h[2..2 + k]) == index + 1
      && 1 <= DecimalValue(h[2..2 + k]) <= |files|
    ensures var k := |NatToString(index + 1)|; var m := |NatToString(|files|)|;
      && |h| == 5 + k + m + |files[index]|
      && AllDigits(h[3 + k..3 + k + m]) && DecimalValue(h[3 + k..3 + k + m]) == |files|
      && h[3 + k + m..5 + k + m] == "] "
    ensures |files[index]| <= |h| && h[|h| - |files[index]|..] == files[index]
  {
    var h := "\n[" + NatToString(index + 1) + "/" + NatToString(|files|) + "] " + files[index];
    HeaderParts(NatToString(index + 1), NatToString(|files|), files[index]);
    ReadsBack(h, 2, index + 1);
    ReadsBack(h, 3 + |NatToString(index + 1)|, |files|);
    h
  }

  /** The digits of `n` written at `at` in `h` read back as `n`. */
  lemma ReadsBack(h: string, at: nat, n: nat)
    requires at + |NatToString(n)| <= |h| && h[at..at + |NatToString(n)|] == NatToString(n)
    ensures AllDigits(h[at..at + |NatToString(n)|]) && DecimalValue(h[at..at + |NatToString(n)|]) == n
  {
    DecimalRoundTrip(n);
  }

  /** Where each part of a header lies in it. */
  lemma HeaderParts(position: string, count: string, name: string)
    ensures var h := "\n[" + position + "/" + count + "] " + name; var k := |position|; var m := |count|;
      && |h| == 5 + k + m + |name|
      && h[..2] == "\n[" && h[2..2 + k] == position && h[2 + k] == '/'
      && h[3 + k..3 + k + m] == count && h[3 + k + m..5 + k + m] == "] "
      && h[|h| - |name|..] == name
  {
  }

  /** The lines `show()` prints for the card at `index`. */
  function Screen(index: nat, files: seq<string>, card: CardText): (lines: seq<string>)
    requires index < |files|
    ensures |lines| == 5
    ensures lines[0] == Header(index, files)
    ensures lines[1] == "Question: " + card.question
    ensures lines[2] == "Correct Answer: " + card.correctAnswer
    ensures lines[3] == "AI Answer: " + card.aiAnswer
    ensures lines[4] == CommandsText
  {
    [ Header(index, files),
      "Question: " + card.question,
      "Correct Answer: " + card.correctAnswer,
      "AI Answer: " + card.aiAnswer,
      CommandsText ]
  }

  // ---------------------------------------------------------------------------
  // Commands and the cursor

  datatype Command = Next | Previous | Quit | Other

  /**
   * A typed line, trimmed and lower-cased, as a command: exactly the lines
   * that trim to n, p or q in either case are commands.
   */
  function ParseCommand(line: string): (r: Command)
    ensures r == Next <==> Trim(line) in {"n", "N"}
    ensures r == Previous <==> Trim(line) in {"p", "P"}
    ensures r == Quit <==> Trim(line) in {"q", "Q"}
  {
    ToLowerLetter(Trim(line), 'n');
    ToLowerLetter(Trim(line), 'p');
    ToLowerLetter(Trim(line), 'q');
    var cmd := ToLower(Trim(line));
    if cmd == "n" then Next
    else if cmd == "p" then Previous
    else if cmd == "q" then Quit
    else Other
  }

  /** White space around a command letter and its case do not matter: " N " is n. */
  lemma PaddedCommand(before: string, ch: char, after: string)
    requires AllWhitespace(before) && AllWhitespace(after)
    requires ch in "nNpPqQ"
    ensures ch in "nN" ==> ParseCommand(before + [ch] + after) == Next
    ensures ch in "pP" ==> ParseCommand(before + [ch] + after) == Previous
    ensures ch in "qQ" ==> ParseCommand(before + [ch] + after) == Quit
  {
    TrimPadded(before, ch, after);
  }

  /** Conversely, a line is a command only when it is white space, the letter in either case, white space. */
  lemma CommandShape(line: string)
    requires ParseCommand(line) != Other
    ensures exists i :: (
      && 0 <= i < |line| && AllWhitespace(line[..i]) && AllWhitespace(line[i + 1..])
      && (ParseCommand(line) == Next ==> line[i] in "nN")
      && (ParseCommand(line) == Previous ==> line[i] in "pP")
      && (ParseCommand(line) == Quit ==> line[i] in "qQ"))
  {
    var t := Trim(line);
    var i :| 0 <= i <= |line| - |t| && line[i..i + |t|] == t && AllWhitespace(line[..i]) && AllWhitespace(line[i + |t|..]);
    assert |t| == 1 && line[i] == t[0];
  }

  /**
   * The cursor after one command: n moves forward unless at the last card,
   * p moves back unless at the first, anything else leaves it.
   */
  function Step(index: nat, count: nat, c: Command): (r: nat)
    ensures index < count ==> r < count
    ensures r == index || (c == Next && r == index + 1 < count) || (c == Previous && r + 1 == index)
    ensures c == Next ==> (r == index + 1 <==> index + 1 < count)
    ensures c == Previous ==> (r + 1 == index <==> index > 0)
    ensures c != Next && c != Previous ==> r == index
  {
    match c
    case Next => if index < count - 1 then index + 1 else index
    case Previous => if index > 0 then index - 1 else index
    case _ => index
  }

  /**
   * The cursor after the lines a session delivers. The handler never checks
   * whether input was closed, so a line delivered after q is handled too.
   * Whatever is typed, the cursor stays on a card: `0 <= index < files.length`.
   */
  function Run(index: nat, count: nat, cmds: seq<Command>): (r: nat)
    ensures index < count ==> r < count
    decreases |cmds|
  {
    if cmds == [] then index
    else Run(Step(index, count, cmds[0]), count, cmds[1..])
  }

  /** q does not move the cursor: the lines around it have the same effect as without it. */
  lemma {:induction false} RunIgnoresQuit(index: nat, count: nat, before: seq<Command>, after: seq<Command>)
    ensures Run(index, count, before + [Quit] + after) == Run(index, count, before + after)
    decreases |before|
  {
    if before == [] {
      assert (before + [Quit] + after)[1..] == after;
      assert before + after == after;
    } else {
      assert (before + [Quit] + after)[1..] == before[1..] + [Quit] + after;
      assert (before + after)[1..] == before[1..] + after;
      RunIgnoresQuit(Step(index, count, before[0]), count, before[1..], after);
    }
  }

  /** Paging forward from the first card reaches the last one and stays there. */
  lemma {:induction false} NextReachesLast(index: nat, count: nat, k: nat)
    requires index < count
    ensures Run(index, count, seq(k, _ => Next)) == if index + k < count then index + k else count - 1
    decreases k
  {
    if k > 0 {
      assert seq(k, _ => Next)[1..] == seq(k - 1, _ => Next);
      NextReachesLast(Step(index, count, Next), count, k - 1);
    }
  }

  // ---------------------------------------------------------------------------
  // The interactive session

  /** The running tool: the card files, the cursor, and whether input has been closed. */
  class Reviewer {
    const files: seq<string>
    var index: nat
    var closed: bool

    ghost predicate Valid()
      reads this
    {
      files != [] && index < |files|
    }

    /** The session after start-up found card files: the cursor on the first one. */
    constructor (files: seq<string>)
      requires files != []
      ensures Valid() && this.files == files && index == 0 && !closed
    {
      this.files := files;
      index := 0;
      closed := false;
    }

    /** `show()` given the parsed file at the cursor (absent when it could not be loaded). */
    method Show(parsed: Option<CardFile>) returns (lines: seq<string>)
      requires Valid()
      ensures lines == Screen(index, files, Load(parsed))
    {
      lines := Screen(index, files, Load(parsed));
    }

    /**
     * The `line` handler: moves the cursor for n and p, closes input for q,
     * and tells whether the card is shown again (always, except for q). It
     * does not look at `closed`: a line that arrives after q is handled alike.
     */
    method OnLine(line: string) returns (redisplay: bool)
      requires Valid()
      modifies this
      ensures Valid()
      ensures index == Step(old(index), |files|, ParseCommand(line))
      ensures closed == (old(closed) || ParseCommand(line) == Quit)
      ensures redisplay <==> ParseCommand(line) != Quit
    {
      var cmd := ToLower(Trim(line));
      if cmd == "n" {
        if index < |files| - 1 {
          index := index + 1;
        }
      } else if cmd == "p" {
        if index > 0 {
          index := index - 1;
        }
      } else if cmd == "q" {
        closed := true;
        return false;
      }
      redisplay := true;
    }
  }
}
