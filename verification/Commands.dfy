/** The line protocol of the control socket: how a line is cut up and what it asks for. */
module Commands {
  import opened Types
  import opened Numbers
  import opened TextLines

  // Signal numbers of Linux.
  const SIGHUP: int := 1
  const SIGINT: int := 2
  const SIGQUIT: int := 3
  const SIGUSR1: int := 10
  const SIGUSR2: int := 12
  const SIGALRM: int := 14
  const SIGCONT: int := 18
  const SIGRTMAX: nat := 64

  /** The first word of a line. */
  function Word(line: Text): Text {
    line[..Until(line, BLANKS)]
  }

  /** The rest of a line after its first word, without the blanks around it. */
  function Rest(line: Text): Text {
    TrimmedEnd(TrimmedStart(line[Until(line, BLANKS)..], BLANKS), BLANKS)
  }

  /** `split_cmd`. */
  method SplitCmd(line: Text) returns (cmd: Text, arg: Text)
    ensures cmd == Word(line) && arg == Rest(line)
  {
    var i := 0;
    while i < |line| && line[i] !in BLANKS
      invariant i <= |line| && forall j :: 0 <= j < i ==> line[j] !in BLANKS
    {
      i := i + 1;
    }
    UntilUnique(line, BLANKS, i);
    cmd := line[..i];
    hide TrimmedStart, TrimmedEnd, Until;
    var rs := TrimLeft(line, i, |line|, BLANKS);
    assert line[i..|line|] == line[i..];
    var re := TrimRight(line, rs, |line|, BLANKS);
    arg := line[rs..re];
  }

  /** `signal_from_name`; zero for a name that is not a signal's. */
  function SignalFromName(name: Text): int {
    if name == "hup" then SIGHUP
    else if name == "int" then SIGINT
    else if name == "term" then SIGTERM
    else if name == "kill" then SIGKILL
    else if name == "usr1" then SIGUSR1
    else if name == "usr2" then SIGUSR2
    else if name == "quit" then SIGQUIT
    else if name == "alrm" then SIGALRM
    else if name == "cont" then SIGCONT
    else 0
  }

  /** The signal number that a digit string asks for, however long the string is. */
  function Wanted(num: Text): (sig: Option<int>)
    ensures sig.Some? ==> 0 < sig.value <= SIGRTMAX
  {
    var v := Value(num[..DigitPrefix(num)]);
    if DigitPrefix(num) > 0 && 0 < v <= SIGRTMAX then Some(v) else None
  }

  /** The parser of signal numbers. */
  method ParseSignal(num: Text) returns (sig: Option<int>)
    ensures sig == Wanted(num)
  {
    var n, k := SaturatingPrefix(num, U64_MAX);
    sig := if k > 0 && n > 0 && n <= SIGRTMAX then Some(n) else None;
  }

  // ---------------------------------------------------------------- round trips

  predicate Wordlike(b: Text) {
    b != [] && forall j :: 0 <= j < |b| ==> !IsBlank(b[j])
  }

  predicate Blank(b: Text) {
    forall j :: 0 <= j < |b| ==> IsBlank(b[j])
  }

  lemma TrimmedBothSides(gap: Text, arg: Text, tail: Text)
    requires Blank(gap) && Blank(tail) && arg != [] && arg[0] !in BLANKS && arg[|arg| - 1] !in BLANKS
    ensures TrimmedEnd(TrimmedStart(gap + arg + tail, BLANKS), BLANKS) == arg
  {
    hide TrimmedStart, TrimmedEnd;
    var rest := gap + (arg + tail);
    assert gap + arg + tail == rest;
    assert TrimmedStart(rest, BLANKS) == arg + tail by {
      assert rest[|gap|] == arg[0] && rest[|gap|..] == arg + tail;
      TrimmedStartUnique(rest, BLANKS, |gap|);
    }
    TrimmedEndKeeps(arg, tail, BLANKS);
  }

  lemma AllTrimmed(b: Text)
    requires Blank(b)
    ensures TrimmedEnd(TrimmedStart(b, BLANKS), BLANKS) == []
  {
    TrimmedStartUnique(b, BLANKS, |b|);
    assert b[|b|..] == [];
  }

  /** A word, blanks, and an argument come apart again, whatever blanks follow. */
  lemma SplitUndoesJoin(word: Text, gap: Text, arg: Text, tail: Text)
    requires Wordlike(word) && Blank(gap) && gap != [] && Blank(tail)
    requires arg == [] || (arg[0] !in BLANKS && arg[|arg| - 1] !in BLANKS)
    ensures Word(word + gap + arg + tail) == word
    ensures Rest(word + gap + arg + tail) == arg
  {
    hide TrimmedStart, TrimmedEnd, Until;
    var line, rest := word + gap + arg + tail, gap + arg + tail;
    assert line == word + rest && rest[0] == gap[0];
    assert forall j :: 0 <= j < |word| ==> line[j] == word[j];
    UntilUnique(line, BLANKS, |word|);
    assert line[..|word|] == word && line[|word|..] == rest;
    if arg == [] {
      assert rest == gap + tail;
      AllTrimmed(rest);
    } else {
      TrimmedBothSides(gap, arg, tail);
    }
  }

  /** A line of three words comes apart through two splits. */
  lemma TwoSplits(name: Text, num: Text, tail: Text)
    requires Wordlike(name) && Wordlike(num) && Blank(tail)
    ensures var line := "signal " + name + " " + num + tail;
            && Word(line) == "signal" && Rest(line) == name + " " + num
            && Word(Rest(line)) == name && Rest(Rest(line)) == num
  {
    hide Word, Rest, IsBlank;
    var arg := name + " " + num;
    EndsOfWords(name, num);
    assert "signal " + name + " " + num + tail == "signal" + " " + arg + tail;
    SplitUndoesJoin("signal", " ", arg, tail) by { SignalWordlike(); }
    SplitUndoesJoin(name, " ", num, []) by { SignalWordlike(); }
    assert name + " " + num + [] == arg;
  }

  lemma SignalWordlike()
    ensures Wordlike("signal") && Blank(" ") && Blank([])
  {
  }

  lemma EndsOfWords(name: Text, num: Text)
    requires Wordlike(name) && Wordlike(num)
    ensures var arg := name + " " + num;
            && arg != [] && arg[0] !in BLANKS && arg[|arg| - 1] !in BLANKS
            && num[0] !in BLANKS && num[|num| - 1] !in BLANKS
  {
    var arg := name + " " + num;
    assert arg[0] == name[0] && arg[|arg| - 1] == num[|num| - 1];
  }

  /** The line `signal <name> <n>` is understood as printed, through both splits. */
  lemma SignalLine(name: Text, n: nat, tail: Text)
    requires Wordlike(name) && Blank(tail)
    ensures var line := "signal " + name + " " + Decimal(n) + tail;
            && Word(line) == "signal" && Word(Rest(line)) == name
            && Rest(Rest(line)) != [] && Wanted(Rest(Rest(line))) == if 0 < n <= 64 then Some(n) else None
  {
    hide Word, Rest, IsBlank, Wordlike, Decimal, Wanted;
    DigitsAreWordlike(n);
    TwoSplits(name, Decimal(n), tail);
    WantedAsPrinted(n);
  }

  lemma WantedAsPrinted(n: nat)
    ensures Wanted(Decimal(n)) == if 0 < n <= 64 then Some(n) else None
  {
    hide Decimal, Value;
    DigitPrefixUnique(Decimal(n), |Decimal(n)|);
    assert Decimal(n)[..|Decimal(n)|] == Decimal(n);
    ValueOfDecimal(n);
  }

  lemma DigitsAreWordlike(n: nat)
    ensures Wordlike(Decimal(n))
  {
  }

  // ---------------------------------------------------------------- what a line asks for

  datatype Operation = OpStart | OpStop | OpRestart | OpDown | OpUp | OpOnce

  datatype Request =
    | Listing
    | Status(name: Text)
    | Operate(op: Operation, name: Text)
    | Check(name: Text)
    | Reload
    | SendTo(name: Text, sig: int)
    | Usage
    | BadSignal
    | Unknown

  function Keyword(op: Operation): Text {
    match op
    case OpStart => "start"
    case OpStop => "stop"
    case OpRestart => "restart"
    case OpDown => "down"
    case OpUp => "up"
    case OpOnce => "once"
  }

  function OperationOf(cmd: Text): Option<Operation> {
    if cmd == "start" then Some(OpStart)
    else if cmd == "stop" then Some(OpStop)
    else if cmd == "restart" then Some(OpRestart)
    else if cmd == "down" then Some(OpDown)
    else if cmd == "up" then Some(OpUp)
    else if cmd == "once" then Some(OpOnce)
    else None
  }

  function UnderstandSignal(arg: Text): Request {
    var name, num := Word(arg), Rest(arg);
    if name == [] || num == [] then Usage
    else
      var sig := Wanted(num);
      if sig.None? then BadSignal else SendTo(name, sig.value)
  }

  function UnderstandWords(cmd: Text, arg: Text): Request {
    var op := OperationOf(cmd);
    if cmd == "list" || cmd == "stat" then Listing
    else if cmd == "reload" then Reload
    else if cmd == "status" then if arg == [] then Usage else Status(arg)
    else if op.Some? then if arg == [] then Usage else Operate(op.value, arg)
    else if cmd == "check" then if arg == [] then Usage else Check(arg)
    else if SignalFromName(cmd) != 0 then if arg == [] then Usage else SendTo(arg, SignalFromName(cmd))
    else if cmd == "signal" then if arg == [] then Usage else UnderstandSignal(arg)
    else Unknown
  }

  function Understand(line: Text): Request {
    UnderstandWords(Word(line), Rest(line))
  }

  /** What a line asks for, found by one or two splits and the parser of signal numbers. */
  method ReadRequest(line: Text) returns (req: Request)
    ensures req == Understand(line)
  {
    hide Word, Rest, Wanted, UnderstandWords;
    var cmd, arg := SplitCmd(line);
    if cmd == "signal" && arg != [] {
      SignalKeyword(arg);
      var name, num := SplitCmd(arg);
      if name == [] || num == [] {
        return Usage;
      }
      var sig := ParseSignal(num);
      req := if sig.None? then BadSignal else SendTo(name, sig.value);
    } else {
      req := UnderstandWords(cmd, arg);
    }
  }

  /** A name that survives the trimming of a command line. */
  predicate Nameable(name: Text) {
    name != [] && !IsBlank(name[0]) && !IsBlank(name[|name| - 1])
  }

  lemma KeywordUnderstood(op: Operation, arg: Text)
    ensures UnderstandWords(Keyword(op), arg) == if arg == [] then Usage else Operate(op, arg)
    ensures Wordlike(Keyword(op))
  {
    match op
    case OpStart =>
    case OpStop =>
    case OpRestart =>
    case OpDown =>
    case OpUp =>
    case OpOnce =>
  }

  /** Every operation is understood as printed, for every name without blanks at its ends. */
  lemma OperationLine(op: Operation, name: Text, tail: Text)
    requires Nameable(name) && Blank(tail)
    ensures Understand(Keyword(op) + " " + name + tail) == Operate(op, name)
    ensures Understand(Keyword(op) + tail) == Usage
  {
    KeywordUnderstood(op, name);
    KeywordUnderstood(op, []);
    hide Keyword, UnderstandWords, Wordlike, Word, Rest;
    SplitUndoesJoin(Keyword(op), " ", name, tail);
    NoArgument(Keyword(op), tail);
  }

  lemma NoArgument(word: Text, tail: Text)
    requires Wordlike(word) && Blank(tail)
    ensures Word(word + tail) == word && Rest(word + tail) == []
  {
    if tail == [] {
      assert word + [] == word;
      UntilUnique(word, BLANKS, |word|);
      assert word[..|word|] == word && word[|word|..] == [];
    } else {
      SplitUndoesJoin(word, tail, [], []);
      assert word + tail + [] + [] == word + tail;
    }
  }

  lemma NoOperation()
    ensures OperationOf("signal") == None
  {
  }

  lemma NoSignalName()
    ensures SignalFromName("signal") == 0
  {
  }

  lemma SignalKeyword(arg: Text)
    ensures UnderstandWords("signal", arg) == if arg == [] then Usage else UnderstandSignal(arg)
  {
    hide OperationOf, SignalFromName, UnderstandSignal;
    NoOperation();
    NoSignalName();
    assert |"signal"| == 6 && "signal"[0] == 's' && "signal"[1] == 'i';
  }

  /** A signal asked for by number is understood as printed, through both splits, if there is such a signal. */
  lemma SignalUnderstood(name: Text, n: nat, tail: Text)
    requires Wordlike(name) && Blank(tail)
    ensures Understand("signal " + name + " " + Decimal(n) + tail)
         == if 0 < n <= 64 then SendTo(name, n) else BadSignal
  {
    hide Word, Rest, Wanted, Decimal, UnderstandWords;
    var line := "signal " + name + " " + Decimal(n) + tail;
    SignalLine(name, n, tail);
    SignalKeyword(Rest(line));
    NothingWanted();
  }

  /** Without a number behind the name, `signal` is a usage error. */
  lemma SignalWithoutNumber(name: Text, tail: Text)
    requires Wordlike(name) && Blank(tail)
    ensures Understand(CommandLine("signal", name, tail)) == Usage && Understand("signal" + tail) == Usage
  {
    hide Word, Rest, Wanted, UnderstandWords, IsBlank, Blank, Wordlike, Nameable;
    SignalWordlike();
    WordlikeIsNameable(name);
    WordUnderstood("signal", name, tail);
    SignalKeyword(name);
    SignalKeyword([]);
    OneWord(name);
  }

  lemma WordlikeIsNameable(name: Text)
    requires Wordlike(name)
    ensures Nameable(name)
  {
  }

  lemma OneWord(name: Text)
    requires Wordlike(name)
    ensures Word(name) == name && Rest(name) == []
  {
    NoArgument(name, []);
    assert name + [] == name;
  }

  lemma NothingWanted()
    ensures Word([]) == [] && Wanted([]) == None
  {
  }

  // ---------------------------------------------------------------- every request, as printed

  /** A command word, alone and with an argument. */
  lemma WordUnderstood(word: Text, arg: Text, tail: Text)
    requires Wordlike(word) && Nameable(arg) && Blank(tail)
    ensures Understand(word + " " + arg + tail) == UnderstandWords(word, arg)
    ensures Understand(word + tail) == UnderstandWords(word, [])
  {
    hide UnderstandWords, Wordlike, Word, Rest;
    SplitUndoesJoin(word, " ", arg, tail);
    NoArgument(word, tail);
  }

  lemma NotOperations()
    ensures forall cmd: Text ::
              (cmd == "list" || cmd == "stat" || cmd == "reload" || cmd == "status" || cmd == "check") ==>
                OperationOf(cmd) == None && Wordlike(cmd)
  {
  }

  /** The words that are neither operations nor signals. */
  lemma OtherWords(arg: Text)
    ensures UnderstandWords("list", arg) == UnderstandWords("stat", arg) == Listing
            && UnderstandWords("reload", arg) == Reload
    ensures UnderstandWords("status", arg) == if arg == [] then Usage else Status(arg)
    ensures UnderstandWords("check", arg) == if arg == [] then Usage else Check(arg)
    ensures Wordlike("list") && Wordlike("stat") && Wordlike("reload") && Wordlike("status") && Wordlike("check")
  {
    NotOperations();
    hide OperationOf, SignalFromName, UnderstandSignal;
  }

  lemma SignalWord(cmd: Text)
    requires SignalFromName(cmd) != 0
    ensures OperationOf(cmd) == None && Wordlike(cmd)
    ensures cmd != "list" && cmd != "stat" && cmd != "reload" && cmd != "status" && cmd != "check"
  {
  }

  /** A signal sent by its name is understood as printed, and without a service is a usage error. */
  lemma NamedSignal(cmd: Text, name: Text, tail: Text)
    requires SignalFromName(cmd) != 0 && Nameable(name) && Blank(tail)
    ensures Understand(cmd + " " + name + tail) == SendTo(name, SignalFromName(cmd))
    ensures Understand(cmd + tail) == Usage
  {
    SignalWord(cmd);
    WordUnderstood(cmd, name, tail);
    hide OperationOf, SignalFromName, UnderstandSignal, Understand, Wordlike, Nameable;
  }

  /** The signals that have a command of their own, and their numbers. */
  predicate Names(cmd: Text, n: int) {
    || (cmd == "hup" && n == 1)
    || (cmd == "int" && n == 2)
    || (cmd == "quit" && n == 3)
    || (cmd == "kill" && n == 9)
    || (cmd == "usr1" && n == 10)
    || (cmd == "usr2" && n == 12)
    || (cmd == "alrm" && n == 14)
    || (cmd == "term" && n == 15)
    || (cmd == "cont" && n == 18)
  }

  lemma NamesFromName(cmd: Text, n: int)
    requires Names(cmd, n)
    ensures SignalFromName(cmd) == n && 0 < n <= SIGRTMAX
  {
  }

  /** A command word and its argument, whatever blanks and line ends follow. */
  function CommandLine(word: Text, arg: Text, tail: Text): Text {
    word + " " + arg + tail
  }

  function SignalLineFor(name: Text, n: nat, tail: Text): Text {
    "signal " + name + " " + Decimal(n) + tail
  }

  lemma SignalByName(cmd: Text, n: nat, name: Text, tail: Text)
    requires Names(cmd, n) && Nameable(name) && Blank(tail)
    ensures Understand(CommandLine(cmd, name, tail)) == SendTo(name, n) && Understand(cmd + tail) == Usage
  {
    NamesFromName(cmd, n);
    hide SignalFromName, Understand, Nameable, Blank, Names;
    NamedSignal(cmd, name, tail);
  }

  lemma SignalByNumber(name: Text, n: nat, tail: Text)
    requires Wordlike(name) && Blank(tail)
    ensures Understand(SignalLineFor(name, n, tail)) == if 0 < n <= 64 then SendTo(name, n) else BadSignal
  {
    hide Understand, Wordlike, Blank, Decimal;
    SignalUnderstood(name, n, tail);
  }

  /** A signal asked for by its name is the one asked for by its number. */
  lemma NamedAsNumbered(cmd: Text, n: nat, name: Text, tail: Text)
    requires Names(cmd, n) && Wordlike(name) && Blank(tail)
    ensures Understand(CommandLine(cmd, name, tail)) == Understand(SignalLineFor(name, n, tail)) == SendTo(name, n)
  {
    NamesFromName(cmd, n);
    assert Nameable(name);
    hide SignalFromName, Understand, Nameable, Wordlike, Blank, Names, CommandLine, SignalLineFor;
    SignalByName(cmd, n, name, tail);
    SignalByNumber(name, n, tail);
  }

  /** The words of the operations. */
  predicate Says(word: Text, op: Operation) {
    || (word == "start" && op == OpStart)
    || (word == "stop" && op == OpStop)
    || (word == "restart" && op == OpRestart)
    || (word == "down" && op == OpDown)
    || (word == "up" && op == OpUp)
    || (word == "once" && op == OpOnce)
  }

  lemma SaysKeyword(word: Text, op: Operation)
    requires Says(word, op)
    ensures word == Keyword(op)
  {
  }

  /** Which operation each word asks for; alone it is a usage error. */
  lemma OperationByWord(word: Text, op: Operation, name: Text, tail: Text)
    requires Says(word, op) && Nameable(name) && Blank(tail)
    ensures Understand(CommandLine(word, name, tail)) == Operate(op, name) && Understand(word + tail) == Usage
  {
    SaysKeyword(word, op);
    hide Understand, Keyword, Nameable, Blank, Says;
    OperationLine(op, name, tail);
  }

  /** A request that a line can ask for. */
  predicate Printable(req: Request) {
    match req
    case Listing => true
    case Reload => true
    case Status(name) => Nameable(name)
    case Check(name) => Nameable(name)
    case Operate(_, name) => Nameable(name)
    case SendTo(name, sig) => Wordlike(name) && 0 < sig <= SIGRTMAX
    case Usage => false
    case BadSignal => false
    case Unknown => false
  }

  function Printed(req: Request): Text
    requires Printable(req)
  {
    match req
    case Listing => "list"
    case Reload => "reload"
    case Status(name) => "status " + name
    case Check(name) => "check " + name
    case Operate(op, name) => Keyword(op) + " " + name
    case SendTo(name, sig) => "signal " + name + " " + Decimal(sig)
  }

  /** Every request is understood as printed, whatever blanks follow. */
  lemma RequestRoundTrip(req: Request, tail: Text)
    requires Printable(req) && Blank(tail)
    ensures Understand(Printed(req) + tail) == req
  {
    hide Understand, UnderstandWords, Wordlike, Nameable, Keyword, Decimal;
    match req
    case Listing => OtherWords([]); NoArgumentLine("list", tail);
    case Reload => OtherWords([]); NoArgumentLine("reload", tail);
    case Status(name) =>
      OtherWords(name);
      ArgumentLine("status", name, tail);
      assert "status" + " " + name + tail == "status " + name + tail;
    case Check(name) =>
      OtherWords(name);
      ArgumentLine("check", name, tail);
      assert "check" + " " + name + tail == "check " + name + tail;
    case Operate(op, name) => OperationLine(op, name, tail);
    case SendTo(name, sig) => SignalUnderstood(name, sig, tail);
  }

  lemma NoArgumentLine(word: Text, tail: Text)
    requires Wordlike(word) && Blank(tail)
    ensures Understand(word + tail) == UnderstandWords(word, [])
  {
    hide UnderstandWords, Wordlike, Word, Rest;
    NoArgument(word, tail);
  }

  lemma ArgumentLine(word: Text, arg: Text, tail: Text)
    requires Wordlike(word) && Nameable(arg) && Blank(tail)
    ensures Understand(word + " " + arg + tail) == UnderstandWords(word, arg) && arg != []
  {
    hide UnderstandWords, Wordlike, Understand;
    WordUnderstood(word, arg, tail);
  }

  const COMMANDS: set<Text> :=
    {"list", "stat", "status", "start", "stop", "restart", "down", "up", "once", "check", "reload", "signal",
     "hup", "term", "kill", "usr1", "usr2", "int", "quit", "alrm", "cont"}

  /** A line is refused as unknown exactly when its first word is none of the commands. */
  lemma UnknownIff(line: Text)
    ensures Understand(line) == Unknown <==> Word(line) !in COMMANDS
  {
    hide Word, Rest, UnderstandSignal;
    var cmd := Word(line);
    assert OperationOf(cmd).Some? <==> cmd in {"start", "stop", "restart", "down", "up", "once"};
    assert SignalFromName(cmd) != 0 <==> cmd in {"hup", "term", "kill", "usr1", "usr2", "int", "quit", "alrm", "cont"};
    SignalNeverUnknown(Rest(line));
    hide OperationOf, SignalFromName;
  }

  lemma SignalNeverUnknown(arg: Text)
    ensures UnderstandSignal(arg) != Unknown
  {
    hide Wanted, Word, Rest;
  }
}
