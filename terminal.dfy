/**
 * The interactive terminal (src/components/InteractiveTerminal.tsx): a
 * command table, a history of (command, output) entries, a mode that is
 * either the command line or the chat, and the current input line.
 * Commands are looked up by their trimmed, lower-cased text.
 */
module Terminal {
  import opened Wrappers
  import opened Text
  import opened Seqs
  import opened ChatAnalysis
  import opened ChatMemory
  import opened ChatSession

  datatype Mode = CommandLine | ChatMode

  /**
   * What a history line shows: one of the fixed texts a command prints,
   * named by `Output`, or text made when the command ran.
   */
  datatype Printed = Fixed(out: Output) | Text(text: string)

  /** One history line; the timestamp the source attaches is not modelled. */
  datatype Entry = Entry(command: string, output: Printed)

  /** The fixed texts commands print. */
  datatype Output =
    | HelpListing | AboutOutput | ProjectsOutput | GithubOutput | ContactOutput
    | WhoamiOutput | PwdOutput | LsOutput | ChatNotice | TerminalNotice

  /** What a command's action does. */
  datatype Action =
    | Show(out: Output)               // append a fixed text
    | ShowDate                        // append the current date
    | ClearHistory                    // empty the history
    | SwitchTo(out: Output, to: Mode) // append a notice and change mode

  datatype Command = Command(name: string, description: string, action: Action)

  const WorkingDirectory: string := "~/portfolio"

  const AboutText: string := Join([
    "Nicolas Paniagua - Full Stack Developer",
    "",
    "🚀 Passionate about creating efficient and innovative digital solutions",
    "💻 Experience with modern web technologies in frontend and backend",
    "☁️  Knowledge in infrastructure, databases, and cloud deployment",
    "🎯 Focus on delivering quality and scalable products",
    "",
    "Skills: React, TypeScript, Node.js, Python, C#, Flutter, MongoDB",
    "Location: Argentina",
    "Status: Available for opportunities"], '\n')

  const ProjectsText: string := Join([
    "Recent Projects:",
    "",
    "1. Juntea - Events App (Flutter, Dart)",
    "   Mobile application for event management",
    "",
    "2. Chapiri - E-commerce Platform (React, Node.js, MongoDB)",
    "   Full-stack e-commerce solution",
    "",
    "3. Goblin Attack - Unity Game (C#, Unity)",
    "   2D platformer game with advanced mechanics",
    "",
    "4. Portfolio Website (React, TypeScript, Tailwind)",
    "   This interactive portfolio you're using right now!",
    "",
    "5. Nuevo Mundo E-commerce (React, Express, MongoDB)",
    "   Solar energy products e-commerce platform",
    "",
    "Type 'github' to view all repositories on GitHub."], '\n')

  const ContactText: string := Join([
    "Contact Information:",
    "",
    "📧 Email: nicolas.paniagua05f@gmail.com",
    "💼 LinkedIn: linkedin.com/in/nicolas-paniagua-80150a256",
    "🐙 GitHub: github.com/nicolas-netizen",
    "📍 Location: Argentina",
    "",
    "Feel free to reach out for collaborations or opportunities!"], '\n')

  /** The text a fixed output stands for. */
  function OutputText(o: Output): string {
    match o
    case HelpListing => HelpOutput()
    case AboutOutput => AboutText
    case ProjectsOutput => ProjectsText
    case GithubOutput => "Opening GitHub profile..."
    case ContactOutput => ContactText
    case WhoamiOutput => "nicolas-netizen"
    case PwdOutput => WorkingDirectory
    case LsOutput => "about  projects  skills  contact  github  resume.pdf"
    case ChatNotice => "Switching to AI chat mode..."
    case TerminalNotice => "Switching to terminal mode..."
  }

  /** The text a history line shows. */
  function Shown(p: Printed): string {
    match p
    case Fixed(o) => OutputText(o)
    case Text(t) => t
  }

  /** The command table, in the order `help` lists it, kept as three columns. */
  const Names: seq<string> := [
    "help", "about", "projects", "github", "contact", "clear",
    "whoami", "pwd", "ls", "date", "chat", "terminal"]

  const Descriptions: seq<string> := [
    "Show available commands", "Show information about Nicolas", "List all projects",
    "Open GitHub profile", "Show contact information", "Clear terminal history",
    "Show current user", "Print working directory", "List directory contents",
    "Show current date and time", "Switch to AI chat mode 🤖", "Switch to terminal mode"]

  const Actions: seq<Action> := [
    Show(HelpListing), Show(AboutOutput), Show(ProjectsOutput), Show(GithubOutput),
    Show(ContactOutput), ClearHistory, Show(WhoamiOutput), Show(PwdOutput), Show(LsOutput),
    ShowDate, SwitchTo(ChatNotice, ChatMode), SwitchTo(TerminalNotice, CommandLine)]

  /** `commands`: row `i` joins the `i`-th name, description and action. */
  const Commands: seq<Command> := [
    Command(Names[0], Descriptions[0], Actions[0]),
    Command(Names[1], Descriptions[1], Actions[1]),
    Command(Names[2], Descriptions[2], Actions[2]),
    Command(Names[3], Descriptions[3], Actions[3]),
    Command(Names[4], Descriptions[4], Actions[4]),
    Command(Names[5], Descriptions[5], Actions[5]),
    Command(Names[6], Descriptions[6], Actions[6]),
    Command(Names[7], Descriptions[7], Actions[7]),
    Command(Names[8], Descriptions[8], Actions[8]),
    Command(Names[9], Descriptions[9], Actions[9]),
    Command(Names[10], Descriptions[10], Actions[10]),
    Command(Names[11], Descriptions[11], Actions[11])]

  lemma RowsMatch()
    ensures |Commands| == |Names| == |Descriptions| == |Actions|
    ensures forall i :: 0 <= i < |Commands| ==> Commands[i] == Command(Names[i], Descriptions[i], Actions[i])
  {
  }

  /** The width `help` pads command names to. */
  const NameWidth: nat := 12

  /** Names are non-empty, lower-case, at most 12 characters and distinct. */
  lemma CommandNames()
    ensures forall i :: 0 <= i < |Commands| ==>
      0 < |Commands[i].name| <= NameWidth && IsLower(Commands[i].name)
    ensures forall i, j :: 0 <= i < j < |Commands| ==> Commands[i].name != Commands[j].name
  {
  }

  /** `clear` is the one command that empties the history; `chat` and `terminal` switch modes. */
  lemma ActionsByName(i: nat)
    requires i < |Commands|
    ensures Commands[i].action == ClearHistory <==> Commands[i].name == "clear"
    ensures Commands[i].action.SwitchTo? && Commands[i].action.to == ChatMode <==> Commands[i].name == "chat"
    ensures Commands[i].action.SwitchTo? && Commands[i].action.to == CommandLine <==> Commands[i].name == "terminal"
  {
  }

  /** `commands.find(cmd => cmd.name === name)`: the index of the first match, or `|table|`. */
  function FindCommand(table: seq<Command>, name: string): (i: nat)
    ensures i <= |table|
    ensures i < |table| ==> table[i].name == name
    ensures forall j :: 0 <= j < i ==> table[j].name != name
  {
    if table == [] then 0
    else if table[0].name == name then 0
    else 1 + FindCommand(table[1..], name)
  }

  /** One line of `help`: the name padded to 12 characters, a dash, the description. */
  function HelpLine(c: Command): string {
    "  " + PadEnd(c.name, NameWidth) + " - " + c.description
  }

  /** `commands.map(...)`: one help line per table row. */
  function HelpLinesOf(table: seq<Command>): (lines: seq<string>)
    ensures |lines| == |table|
    ensures forall i :: 0 <= i < |table| ==> lines[i] == HelpLine(table[i])
  {
    if table == [] then [] else [HelpLine(table[0])] + HelpLinesOf(table[1..])
  }

  function HelpLines(): seq<string> {
    HelpLinesOf(Commands)
  }

  const HelpHeader: string := "Available commands:"
  const HelpFooter: string := "Type any command and press Enter to execute."

  /** `getHelpOutput`. */
  function HelpOutput(): string {
    HelpHeader + "\n" + Join(HelpLines(), '\n') + "\n\n" + HelpFooter
  }

  /** The help line of a short name puts the description at column 17, after the padded name. */
  lemma HelpLineLayout(c: Command)
    requires |c.name| <= NameWidth
    ensures var line := HelpLine(c);
      && |line| == 2 + NameWidth + 3 + |c.description|
      && line[2..2 + |c.name|] == c.name
      && (forall k :: 2 + |c.name| <= k < 2 + NameWidth ==> line[k] == ' ')
      && line[2 + NameWidth..2 + NameWidth + 3] == " - "
      && line[2 + NameWidth + 3..] == c.description
  {
    var padded := PadEnd(c.name, NameWidth);
    var line := HelpLine(c);
    assert line == "  " + padded + " - " + c.description;
    assert line[2..2 + NameWidth] == padded;
    assert line[2..2 + |c.name|] == padded[..|c.name|];
  }

  /** Names and descriptions fit on one line. */
  lemma CommandsSingleLine()
    ensures forall i :: 0 <= i < |Commands| ==>
      '\n' !in Commands[i].name && '\n' !in Commands[i].description
  {
    RowsMatch();
    NamesSingleLine();
    DescriptionsSingleLine();
  }

  lemma NamesSingleLine()
    ensures forall i :: 0 <= i < |Names| ==> '\n' !in Names[i]
  {
  }

  lemma DescriptionsSingleLine()
    ensures forall i :: 0 <= i < |Descriptions| ==> '\n' !in Descriptions[i]
  {
    assert forall i :: 0 <= i < 6 ==> '\n' !in Descriptions[i];
  }

  /** A command whose name and description fit on one line has a one-line help entry. */
  lemma HelpLineSingle(c: Command)
    requires '\n' !in c.name && '\n' !in c.description
    ensures '\n' !in HelpLine(c)
  {
    var padded := PadEnd(c.name, NameWidth);
    forall k | 0 <= k < |padded|
      ensures padded[k] != '\n'
    {
      if k < |c.name| {
        assert padded[k] == padded[..|c.name|][k];
      }
    }
  }

  /** No help line spans two lines. */
  lemma HelpLinesSingle()
    ensures forall i :: 0 <= i < |Commands| ==> '\n' !in HelpLines()[i]
  {
    CommandsSingleLine();
    forall i | 0 <= i < |Commands|
      ensures '\n' !in HelpLines()[i]
    {
      HelpLineSingle(Commands[i]);
    }
  }

  /**
   * `help` prints the header, then exactly one line per command in table
   * order, then an empty line and the closing hint.
   */
  lemma HelpOutputLines()
    ensures Split(HelpOutput(), '\n') == [HelpHeader] + HelpLines() + ["", HelpFooter]
  {
    HelpLinesSingle();
    assert '\n' !in HelpHeader && '\n' !in HelpFooter;
    FramedLines(HelpHeader, HelpLines(), HelpFooter);
  }

  /** A header, one-line entries, an empty line and a footer split back into exactly those lines. */
  lemma FramedLines(header: string, lines: seq<string>, footer: string)
    requires '\n' !in header && '\n' !in footer
    requires |lines| >= 1 && forall k :: 0 <= k < |lines| ==> '\n' !in lines[k]
    ensures Split(header + "\n" + Join(lines, '\n') + "\n\n" + footer, '\n')
            == [header] + lines + ["", footer]
  {
    var rest := Join(lines, '\n') + ['\n'] + ([] + ['\n'] + footer);
    assert header + "\n" + Join(lines, '\n') + "\n\n" + footer == header + ['\n'] + rest;
    BodyLines(lines, footer);
    SplitConcat(header, rest, '\n');
    SplitNone(header, '\n');
  }

  lemma BodyLines(lines: seq<string>, footer: string)
    requires '\n' !in footer
    requires |lines| >= 1 && forall k :: 0 <= k < |lines| ==> '\n' !in lines[k]
    ensures Split(Join(lines, '\n') + ['\n'] + ([] + ['\n'] + footer), '\n') == lines + ["", footer]
  {
    SplitJoin(lines, '\n');
    SplitConcat(Join(lines, '\n'), [] + ['\n'] + footer, '\n');
    EmptyLineThen(footer);
  }

  lemma EmptyLineThen(footer: string)
    requires '\n' !in footer
    ensures Split([] + ['\n'] + footer, '\n') == ["", footer]
  {
    SplitConcat([], footer, '\n');
    SplitNone(footer, '\n');
  }

  /** The message an unknown command gets, quoting the input as typed. */
  function NotFound(command: string): string {
    "Command not found: " + command + ". Type 'help' for available commands."
  }

  /** The part of the terminal state commands change. */
  datatype Shell = Shell(history: seq<Entry>, mode: Mode)

  /** The effect of running a table command, `now` being the date text. */
  function Perform(c: Command, s: Shell, now: string): Shell {
    match c.action
    case Show(o) => Shell(s.history + [Entry(c.name, Fixed(o))], s.mode)
    case ShowDate => Shell(s.history + [Entry(c.name, Text(now))], s.mode)
    case ClearHistory => Shell([], s.mode)
    case SwitchTo(o, to) => Shell(s.history + [Entry(c.name, Fixed(o))], to)
  }

  /** The lookup key of an input line. */
  function Key(command: string): string {
    Lower(Trim(command))
  }

  /** `executeCommand`: run the matching command, echo a blank line, or report an unknown command. */
  function Executed(s: Shell, command: string, now: string): Shell {
    var key := Key(command);
    var i := FindCommand(Commands, key);
    if i < |Commands| then Perform(Commands[i], s, now)
    else if key == "" then Shell(s.history + [Entry("", Text(""))], s.mode)
    else Shell(s.history + [Entry(command, Text(NotFound(command)))], s.mode)
  }

  /** Normalising twice is normalising once. */
  lemma KeyIdempotent(command: string)
    ensures Key(Key(command)) == Key(command)
  {
    TrimLowerTrim(command);
    LowerIsLower(Trim(command));
    LowerOfLower(Lower(Trim(command)));
  }

  /** The key is empty exactly for a blank line. */
  lemma KeyBlank(command: string)
    ensures Key(command) == "" <==> AllSpace(command)
  {
    TrimEmptyIff(command);
  }

  /** Surrounding spaces and capitals do not matter to a known command: ` HELP ` runs `help`. */
  lemma LookupNormalises(s: Shell, command: string, now: string)
    requires FindCommand(Commands, Key(command)) < |Commands|
    ensures Executed(s, command, now) == Executed(s, Key(command), now)
  {
    var key := Key(command);
    KeyIdempotent(command);
    var i := FindCommand(Commands, key);
    calc {
      Executed(s, command, now);
      Perform(Commands[i], s, now);
      Executed(s, key, now);
    }
  }

  /** A blank line appends one entry with empty command and output. */
  lemma BlankInput(s: Shell, command: string, now: string)
    requires AllSpace(command)
    ensures Executed(s, command, now) == Shell(s.history + [Entry("", Text(""))], s.mode)
  {
    KeyBlank(command);
    CommandNames();
  }

  /** An unknown non-blank line appends exactly one entry quoting the line as typed. */
  lemma UnknownInput(s: Shell, command: string, now: string)
    requires !AllSpace(command)
    requires forall c :: c in Commands ==> c.name != Key(command)
    ensures Executed(s, command, now) == Shell(s.history + [Entry(command, Text(NotFound(command)))], s.mode)
  {
    KeyBlank(command);
    assert FindCommand(Commands, Key(command)) == |Commands|;
  }

  /**
   * Every command but `clear` appends exactly one entry named after the
   * command; `clear` empties the history; only a switch changes the mode.
   */
  lemma PerformSpec(c: Command, s: Shell, now: string)
    ensures var r := Perform(c, s, now);
      && (c.action == ClearHistory ==> r == Shell([], s.mode))
      && (c.action != ClearHistory ==>
            && |r.history| == |s.history| + 1
            && r.history[..|s.history|] == s.history
            && r.history[|s.history|].command == c.name)
      && (r.mode == if c.action.SwitchTo? then c.action.to else s.mode)
  {
    var r := Perform(c, s, now);
    if c.action != ClearHistory {
      assert r.history[..|s.history|] == s.history;
    }
  }

  /**
   * `clear` empties the history; every other command appends exactly one
   * entry named after that command; `chat` and `terminal` set the mode and
   * no other command changes it.
   */
  lemma KnownCommand(s: Shell, command: string, now: string)
    requires exists c :: c in Commands && c.name == Key(command)
    ensures var r := Executed(s, command, now);
      && (Key(command) == "clear" ==> r == Shell([], s.mode))
      && (Key(command) != "clear" ==>
            && |r.history| == |s.history| + 1
            && r.history[..|s.history|] == s.history
            && r.history[|s.history|].command == Key(command))
      && (Key(command) == "chat" ==> r.mode == ChatMode)
      && (Key(command) == "terminal" ==> r.mode == CommandLine)
      && (Key(command) != "chat" && Key(command) != "terminal" ==> r.mode == s.mode)
  {
    var i := FindCommand(Commands, Key(command));
    assert i < |Commands|;
    PerformSpec(Commands[i], s, now);
    ActionsByName(i);
  }

  /** `pwd` appends its fixed output, the working directory. */
  lemma Pwd(s: Shell, now: string)
    ensures Executed(s, "pwd", now).history == s.history + [Entry("pwd", Fixed(PwdOutput))]
  {
    KeyOfName("pwd");
    PwdRow();
  }

  lemma PwdRow()
    ensures FindCommand(Commands, "pwd") == 7 && Commands[7].action == Show(PwdOutput)
  {
    assert Commands[7].name == "pwd";
    assert forall j :: 0 <= j < 7 ==> Commands[j].name != "pwd";
  }

  /** `whoami` appends its fixed output, the user name. */
  lemma Whoami(s: Shell, now: string)
    ensures Executed(s, "whoami", now).history == s.history + [Entry("whoami", Fixed(WhoamiOutput))]
  {
    KeyOfName("whoami");
    WhoamiRow();
  }

  lemma WhoamiRow()
    ensures FindCommand(Commands, "whoami") == 6 && Commands[6].action == Show(WhoamiOutput)
  {
    assert Commands[6].name == "whoami";
    assert forall j :: 0 <= j < 6 ==> Commands[j].name != "whoami";
  }

  /** The working directory is `~/portfolio`. */
  lemma PwdText()
    ensures Shown(Fixed(PwdOutput)) == "~/portfolio"
  {
  }

  /** The user is `nicolas-netizen`. */
  lemma WhoamiText()
    ensures Shown(Fixed(WhoamiOutput)) == "nicolas-netizen"
  {
  }

  /** A lower-case word without white space is its own key. */
  lemma KeyOfName(name: string)
    requires IsLower(name) && forall k :: 0 <= k < |name| ==> !IsSpace(name[k])
    ensures Key(name) == name
  {
    TrimTrimmed(name);
    LowerOfLower(name);
  }

  class Console {
    var isOpen: bool
    var input: string
    var history: seq<Entry>
    var mode: Mode
    /** The chat hook the console forwards chat-mode lines to. */
    const chat: Chat

    function State(): Shell
      reads this
    {
      Shell(history, mode)
    }

    ghost predicate Valid()
      reads this, chat
    {
      chat.Valid()
    }

    constructor ()
      ensures Valid() && fresh(chat)
      ensures !isOpen && input == "" && history == [] && mode == CommandLine
    {
      isOpen := false;
      input := "";
      history := [];
      mode := CommandLine;
      chat := new Chat();
    }

    /** `addToHistory`. */
    method AddToHistory(command: string, output: Printed)
      modifies this
      ensures history == old(history) + [Entry(command, output)]
      ensures mode == old(mode) && input == old(input) && isOpen == old(isOpen)
    {
      history := history + [Entry(command, output)];
    }

    /** A command's `action`. */
    method Run(c: Command, now: string)
      modifies this
      ensures State() == Perform(c, old(State()), now)
      ensures input == old(input) && isOpen == old(isOpen)
    {
      match c.action {
        case Show(o) => AddToHistory(c.name, Fixed(o));
        case ShowDate => AddToHistory(c.name, Text(now));
        case ClearHistory => history := [];
        case SwitchTo(o, to) =>
          AddToHistory(c.name, Fixed(o));
          mode := to;
      }
    }

    /** `executeCommand`; `now` is the text of `new Date().toString()`. */
    method ExecuteCommand(command: string, now: string)
      modifies this
      ensures State() == Executed(old(State()), command, now)
      ensures input == old(input) && isOpen == old(isOpen)
    {
      var key := Lower(Trim(command));
      var i := FindCommand(Commands, key);
      if i < |Commands| {
        Run(Commands[i], now);
      } else if key == "" {
        AddToHistory("", Text(""));
      } else {
        AddToHistory(command, Text(NotFound(command)));
      }
    }

    /** The input field's `onChange`. */
    method SetInput(text: string)
      modifies this
      ensures input == text
      ensures history == old(history) && mode == old(mode) && isOpen == old(isOpen)
    {
      input := text;
    }

    /** `handleChatMessage`: a non-blank line goes to the chat, `reply` standing for the assistant's answer. */
    method HandleChatMessage(message: string, reply: Option<string>)
      requires Valid()
      modifies chat
      ensures Valid()
      ensures AllSpace(message) ==> unchanged(chat)
      ensures !AllSpace(message) ==>
        && chat.messages == old(chat.messages) + [UserMessage(message)]
                            + (if reply.Some? then [ReplyMessage(reply.value)] else [])
        && chat.error == (if reply.Some? then None else Some(FailureText))
        && !chat.isLoading
        && chat.Memory() == Remembered(old(chat.Memory()), message, AnalyzeSentiment(message),
                                       Categorize(message), Found(AllKeywords, Lower(message)))
    {
      TrimEmptyIff(message);
      if Trim(message) != [] {
        chat.SendMessage(message, reply);
      }
    }

    /**
     * `handleKeyPress`. Only Enter acts: in chat mode the line goes to
     * `HandleChatMessage`, in command mode it is executed; either way the
     * input is cleared.
     */
    method HandleKeyPress(key: string, now: string, reply: Option<string>)
      requires Valid()
      modifies this, chat
      ensures Valid()
      ensures key != "Enter" ==>
        State() == old(State()) && input == old(input) && unchanged(chat)
      ensures key == "Enter" ==> input == ""
      ensures key == "Enter" && old(mode) == CommandLine ==>
        State() == Executed(old(State()), old(input), now) && unchanged(chat)
      ensures key == "Enter" && old(mode) == ChatMode ==>
        && State() == old(State())
        && (AllSpace(old(input)) ==> unchanged(chat))
        && (!AllSpace(old(input)) ==>
              && chat.messages == old(chat.messages) + [UserMessage(old(input))]
                                  + (if reply.Some? then [ReplyMessage(reply.value)] else [])
              && chat.error == (if reply.Some? then None else Some(FailureText))
              && !chat.isLoading
              && chat.Memory() == Remembered(old(chat.Memory()), old(input), AnalyzeSentiment(old(input)),
                                             Categorize(old(input)), Found(AllKeywords, Lower(old(input)))))
      ensures isOpen == old(isOpen)
    {
      if key == "Enter" {
        if mode == ChatMode {
          HandleChatMessage(input, reply);
        } else {
          ExecuteCommand(input, now);
        }
        input := "";
      }
    }

    /** The mode button in the header. */
    method ToggleMode()
      modifies this
      ensures mode == (if old(mode) == ChatMode then CommandLine else ChatMode)
      ensures history == old(history) && input == old(input) && isOpen == old(isOpen)
    {
      mode := if mode == ChatMode then CommandLine else ChatMode;
    }

    /** The floating button opens the terminal, the close button closes it. */
    method SetOpen(open: bool)
      modifies this
      ensures isOpen == open
      ensures State() == old(State()) && input == old(input)
    {
      isOpen := open;
    }
  }
}
