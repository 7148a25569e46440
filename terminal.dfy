/**
 * The pop-up terminal of js/terminal.js: a transcript of lines above an
 * input field. Pressing Enter echoes the typed text as a history line,
 * then `clear` empties the transcript, a known command appends its
 * response, and any other non-empty command appends an error line.
 */
module Terminal {
  import opened JsText

  /** One element of the transcript: a plain line (welcome text, echoed input) or a response. */
  datatype Line =
    | Welcome(html: string)
    | History(original: string)
    | Response(text: string)
    | Failure(text: string)

  const WelcomeLines: seq<Line> := [
    Welcome("Welcome to Zameer's Neural Interface v1.0."),
    Welcome("Type <span class=\"terminal-highlight\">'help'</span> for available commands.")
  ]

  const HelpText: string :=
    "Available commands:\n  - about: Who is Zameer?\n  - skills: List technical arsenal\n  - contact: Get contact info\n  - clear: Clear terminal\n  - date: Show current system date"
  const AboutText: string :=
    "Zameer Haider is an Accounts Officer & CAF Aspirant merging financial discipline with AI automation. Based in Lahore."
  const SkillsText: string :=
    "Active Skills:\n  [+] Financial Accounting\n  [+] ERP Systems\n  [+] Advanced Excel\n  [+] AI Workflow Integration (Claude, Gemini, Qwen)"
  const ContactText: string :=
    "Email: zameerchattha0@gmail.com\nPhone: +92 323 0714288\nLinkedIn: linkedin.com/in/zameerhaiderchattha"

  /** The command table; `date` holds the clock reading taken when the page loaded. */
  function Commands(date: string): (table: map<string, string>)
    ensures table.Keys == {"help", "about", "skills", "contact", "date"}
    ensures table["help"] == HelpText && table["date"] == date
  {
    map["help" := HelpText, "about" := AboutText, "skills" := SkillsText,
        "contact" := ContactText, "date" := date]
  }

  /** The error text for an unrecognised command. */
  function NotFound(cmd: string): (text: string)
    ensures |text| == |cmd| + 48 && text[19..19 + |cmd|] == cmd
    ensures text[..19] == "Command not found: " && text[19 + |cmd|..] == ". Type 'help' for assistance."
  {
    "Command not found: " + cmd + ". Type 'help' for assistance."
  }

  /** What the dispatcher looks up: the input trimmed, then lower-cased. */
  function Normalize(input: string): (cmd: string)
    ensures |cmd| <= |input|
    ensures forall i :: 0 <= i < |cmd| ==> !('A' <= cmd[i] <= 'Z')
  {
    ToLower(Trim(input))
  }

  /** A command whose table entry is a non-empty text (JavaScript truthiness of `commands[cmd]`). */
  function IsKnown(cmd: string, commands: map<string, string>): (known: bool)
    ensures known ==> cmd in commands
    ensures cmd in commands ==> (known <==> |commands[cmd]| > 0)
  {
    cmd in commands && commands[cmd] != ""
  }

  /** The lines a non-`clear` command appends after its history line. */
  function Reply(cmd: string, commands: map<string, string>): (reply: seq<Line>)
    requires cmd != "clear"
    ensures |reply| <= 1
    ensures reply == [] <==> cmd == "" && !IsKnown(cmd, commands)
    ensures IsKnown(cmd, commands) ==> reply == [Response(commands[cmd])]
    ensures !IsKnown(cmd, commands) && cmd != "" ==> reply == [Failure(NotFound(cmd))]
  {
    if IsKnown(cmd, commands) then [Response(commands[cmd])]
    else if cmd != "" then [Failure(NotFound(cmd))]
    else []
  }

  /** The transcript after Enter is pressed on `typed`. */
  function AfterEnter(before: seq<Line>, typed: string, commands: map<string, string>): (after: seq<Line>)
    ensures after == [] <==> Normalize(typed) == "clear"
    ensures Normalize(typed) != "clear" ==> |before| < |after| <= |before| + 2
  {
    var cmd := Normalize(typed);
    if cmd == "clear" then [] else before + [History(typed)] + Reply(cmd, commands)
  }

  class Term {
    /** The transcript, oldest line first. */
    var lines: seq<Line>
    /** The text in the input field. */
    var input: string
    /** The command table. */
    const commands: map<string, string>

    /** A fresh terminal shows the two welcome lines and an empty input. */
    constructor (date: string)
      ensures lines == WelcomeLines && input == "" && commands == Commands(date)
    {
      lines := WelcomeLines;
      input := "";
      commands := Commands(date);
    }

    /** Typing replaces the input field's text and nothing else. */
    method Type(text: string)
      modifies this
      ensures input == text && lines == old(lines)
    {
      input := text;
    }

    /** Removes the transcript lines one by one, as the `forEach` over the query result does. */
    method ClearLines()
      modifies this
      ensures lines == [] && input == old(input)
    {
      var i := 0;
      var n := |lines|;
      ghost var before := lines;
      while i < n
        invariant 0 <= i <= n == |before|
        invariant lines == before[i..]
        invariant input == old(input)
      {
        lines := lines[1..];
        i := i + 1;
      }
    }

    /** The `keydown` handler: only Enter does anything. */
    method KeyDown(key: string)
      modifies this
      ensures key != "Enter" ==> lines == old(lines) && input == old(input)
      ensures key == "Enter" ==> input == "" && lines == AfterEnter(old(lines), old(input), commands)
    {
      if key == "Enter" {
        var cmd := Normalize(input);
        var originalCmd := input;
        input := "";

        lines := lines + [History(originalCmd)];

        if cmd == "clear" {
          ClearLines();
        } else if cmd in commands && commands[cmd] != "" {
          lines := lines + [Response(commands[cmd])];
        } else if cmd != "" {
          lines := lines + [Failure(NotFound(cmd))];
        }
      }
    }
  }

  /** Every Enter other than `clear` keeps the old transcript and echoes the typed text next. */
  lemma EnterEchoesInput(before: seq<Line>, typed: string, commands: map<string, string>)
    requires Normalize(typed) != "clear"
    ensures var after := AfterEnter(before, typed, commands);
      && |before| < |after| <= |before| + 2
      && after[..|before|] == before
      && after[|before|] == History(typed)
  {
  }

  /** `clear`, in any casing and padding, leaves an empty transcript. */
  lemma ClearEmptiesTranscript(before: seq<Line>, typed: string, commands: map<string, string>)
    requires Normalize(typed) == "clear"
    ensures AfterEnter(before, typed, commands) == []
  {
  }

  /** A known command answers with exactly its table entry. */
  lemma KnownCommandResponds(before: seq<Line>, typed: string, table: map<string, string>)
    requires IsKnown(Normalize(typed), table) && Normalize(typed) != "clear"
    ensures AfterEnter(before, typed, table) == before + [History(typed), Response(table[Normalize(typed)])]
  {
  }

  /** The five table entries are all known; `date` is, whenever the clock text is non-empty. */
  lemma TableCommandsAreKnown(date: string)
    ensures IsKnown("help", Commands(date)) && IsKnown("about", Commands(date))
    ensures IsKnown("skills", Commands(date)) && IsKnown("contact", Commands(date))
    ensures IsKnown("date", Commands(date)) <==> date != ""
    ensures !IsKnown("clear", Commands(date))
  {
  }

  /** Anything unknown that is not blank answers with the not-found message naming it. */
  lemma UnknownCommandFails(before: seq<Line>, typed: string, table: map<string, string>)
    requires !IsKnown(Normalize(typed), table) && Normalize(typed) != "clear" && Normalize(typed) != ""
    ensures AfterEnter(before, typed, table) ==
      before + [History(typed), Failure(NotFound(Normalize(typed)))]
  {
  }

  /** No command outside the table's five names and `date` is known. */
  lemma OnlyTableCommandsAreKnown(cmd: string, date: string)
    requires cmd != "help" && cmd != "about" && cmd != "skills" && cmd != "contact" && cmd != "date"
    ensures !IsKnown(cmd, Commands(date))
  {
  }

  /** A blank input only echoes itself. */
  lemma BlankInputOnlyEchoes(before: seq<Line>, typed: string, date: string)
    requires Normalize(typed) == ""
    ensures AfterEnter(before, typed, Commands(date)) == before + [History(typed)]
  {
  }

  /** Normalising twice is normalising once. */
  lemma {:induction false} NormalizeIdempotent(input: string)
    ensures Normalize(Normalize(input)) == Normalize(input)
  {
    var t := Trim(input);
    var c := ToLower(t);
    LowerKeepsSpaces(t);
    TrimKeepsTrimmed(c);
    ToLowerIdempotent(t);
  }

  /** Lower-casing turns no character into white space and no white space into anything else. */
  lemma LowerKeepsSpaces(t: string)
    ensures forall i :: 0 <= i < |t| ==> (IsJsSpace(ToLower(t)[i]) <==> IsJsSpace(t[i]))
  {
  }
}
