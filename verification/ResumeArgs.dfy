/** The command that resumes an AI session: the launch flags worth keeping are
    read off the recorded command line, which may itself be a resume command. */
module ResumeArgs {
  import opened Wrappers
  import opened Entries

  // Splitting at white space: the finished words of a text, and the one that
  // reaches its end.

  function Words(s: string): seq<string> {
    if s == "" then []
    else if IsSpace(s[|s| - 1]) && LastWord(s[..|s| - 1]) != "" then Words(s[..|s| - 1]) + [LastWord(s[..|s| - 1])]
    else Words(s[..|s| - 1])
  }

  function LastWord(s: string): string {
    if s == "" || IsSpace(s[|s| - 1]) then "" else LastWord(s[..|s| - 1]) + [s[|s| - 1]]
  }

  function Fields(s: string): seq<string> {
    if LastWord(s) == "" then Words(s) else Words(s) + [LastWord(s)]
  }

  function Join(tokens: seq<string>): string {
    if tokens == [] then ""
    else if |tokens| == 1 then tokens[0]
    else Join(tokens[..|tokens| - 1]) + " " + tokens[|tokens| - 1]
  }

  predicate Word(t: string) {
    t != "" && forall i :: 0 <= i < |t| ==> !IsSpace(t[i])
  }

  predicate AllWords(tokens: seq<string>) {
    forall i :: 0 <= i < |tokens| ==> Word(tokens[i])
  }

  lemma {:induction false} FieldsAreWords(s: string)
    ensures AllWords(Words(s)) && AllWords(Fields(s)) && forall i :: 0 <= i < |LastWord(s)| ==> !IsSpace(LastWord(s)[i])
  {
    if s != "" {
      FieldsAreWords(s[..|s| - 1]);
    }
  }

  lemma {:induction false} AppendWord(s: string, t: string)
    requires Word(t)
    ensures Words(s + " " + t) == Fields(s) && LastWord(s + " " + t) == t
  {
    var init := t[..|t| - 1];
    assert (s + " " + t)[..|s + " " + t| - 1] == s + " " + init;
    assert t == init + [t[|t| - 1]];
    if init == "" {
      assert s + " " + init == s + " ";
      assert (s + " ")[..|s|] == s;
    } else {
      AppendWord(s, init);
    }
  }

  lemma {:induction false} SingleWord(t: string)
    requires forall i :: 0 <= i < |t| ==> !IsSpace(t[i])
    ensures Words(t) == [] && LastWord(t) == t
  {
    if t != "" {
      SingleWord(t[..|t| - 1]);
    }
  }

  // Splitting undoes joining.
  lemma {:induction false} FieldsOfJoin(tokens: seq<string>)
    requires AllWords(tokens)
    ensures Fields(Join(tokens)) == tokens
  {
    if |tokens| == 1 {
      SingleWord(tokens[0]);
    } else if |tokens| > 1 {
      var init, t := tokens[..|tokens| - 1], tokens[|tokens| - 1];
      FieldsOfJoin(init);
      AppendWord(Join(init), t);
      assert tokens == init + [t];
    }
  }

  lemma FieldsStep(s: string, d: char)
    ensures LastWord(s + [d]) == if IsSpace(d) then "" else LastWord(s) + [d]
    ensures Words(s + [d]) == if IsSpace(d) && LastWord(s) != "" then Words(s) + [LastWord(s)] else Words(s)
  {
    assert (s + [d])[..|s|] == s;
  }

  lemma {:induction false} FieldsAfter(p: string, b: string)
    requires LastWord(p) == ""
    ensures Words(p + b) == Words(p) + Words(b) && LastWord(p + b) == LastWord(b)
  {
    hide IsSpace, Words, LastWord;
    if b == "" {
      assert p + b == p && b == [];
      EmptyFields();
    } else {
      var init, d := b[..|b| - 1], b[|b| - 1];
      FieldsAfter(p, init);
      FieldsStep(p + init, d);
      FieldsStep(init, d);
      assert p + b == (p + init) + [d] && b == init + [d];
    }
  }

  lemma EmptyFields()
    ensures Words("") == [] && LastWord("") == ""
  {
  }

  // A white space character anywhere separates what is in front of it from what is
  // behind it; with words kept whole, that is all splitting does.
  lemma FieldsSplit(a: string, c: char, b: string)
    requires IsSpace(c)
    ensures Fields(a + [c] + b) == Fields(a) + Fields(b)
  {
    FieldsStep(a, c);
    hide IsSpace, Words, LastWord;
    FieldsAfter(a + [c], b);
  }

  lemma FieldsOfWord(t: string)
    requires forall i :: 0 <= i < |t| ==> !IsSpace(t[i])
    ensures Fields(t) == if t == "" then [] else [t]
  {
    SingleWord(t);
  }

  // Flags.

  function Dash(t: string): bool {
    t != "" && t[0] == '-'
  }

  function IsResume(t: string): bool {
    t == "--resume" || t == "-r"
  }

  function IsInlineResume(t: string): bool {
    "--resume=" <= t
  }

  function IsContinue(t: string): bool {
    t == "--continue" || t == "-c"
  }

  function TakesValue(t: string): bool {
    t in {"--permission-mode", "--model", "--add-dir", "--mcp-config", "--settings", "--append-system-prompt"}
  }

  function ValueFollows(tokens: seq<string>): bool {
    |tokens| > 1 && !Dash(tokens[1])
  }

  // The flags kept from a launch.
  function Keep(tokens: seq<string>): seq<string> {
    if tokens == [] then []
    else
      var t := tokens[0];
      if IsResume(t) then if ValueFollows(tokens) then Keep(tokens[2..]) else Keep(tokens[1..])
      else if IsInlineResume(t) || IsContinue(t) then Keep(tokens[1..])
      else if TakesValue(t) then if ValueFollows(tokens) then [t, tokens[1]] + Keep(tokens[2..]) else Keep(tokens[1..])
      else [t] + Keep(tokens[1..])
  }

  predicate IsWrapper(t: string) {
    t in {"sudo", "time", "nice", "env"}
  }

  // NAME=value, with an upper-case name.
  predicate IsEnvAssign(t: string) {
    exists eq :: 0 < eq < |t| && t[eq] == '=' && forall i :: 0 <= i < eq ==>
      t[i] == '_' || 'A' <= t[i] <= 'Z' || ('0' <= t[i] <= '9' && i > 0)
  }

  function SkipPrefix(tokens: seq<string>): seq<string> {
    if tokens != [] && (IsEnvAssign(tokens[0]) || IsWrapper(tokens[0])) then SkipPrefix(tokens[1..]) else tokens
  }

  // What follows the program of a command line.
  function Arguments(commandLine: string): seq<string> {
    var tokens := SkipPrefix(Fields(commandLine));
    if tokens == [] then [] else tokens[1..]
  }

  // The resume invocation, if there is one.
  function Resume(kind: string, sid: string, commandLine: string): Option<seq<string>> {
    if sid == "" then None
    else if kind == "claude" then Some(["claude", "--resume", sid] + Keep(Arguments(commandLine)))
    else if kind == "codex" then Some(["codex", "resume", sid])
    else None
  }

  // A list of flags a resume command can carry as it is: no flag of its own to
  // resume or continue, and a value after every flag that takes one.
  predicate Clean(tokens: seq<string>) {
    forall i :: 0 <= i < |tokens| ==> CleanAt(tokens, i)
  }

  predicate CleanAt(tokens: seq<string>, i: nat)
    requires i < |tokens|
  {
    && !IsResume(tokens[i]) && !IsInlineResume(tokens[i]) && !IsContinue(tokens[i])
    && (TakesValue(tokens[i]) ==> i + 1 < |tokens| && !Dash(tokens[i + 1]))
  }

  lemma CleanCons(t: string, rest: seq<string>)
    requires Clean(rest) && !IsResume(t) && !IsInlineResume(t) && !IsContinue(t)
    requires TakesValue(t) ==> rest != [] && !Dash(rest[0])
    ensures Clean([t] + rest)
  {
    var all := [t] + rest;
    forall i | 0 <= i < |all|
      ensures CleanAt(all, i)
    {
      if i > 0 {
        assert CleanAt(rest, i - 1) && all[i] == rest[i - 1];
      }
    }
  }

  // The flags by name: what is kept of one that stands alone.
  lemma KeepAlone(t: string)
    ensures Keep([t]) == if t in {"--resume", "-r", "--continue", "-c"} || "--resume=" <= t
                            || t in {"--permission-mode", "--model", "--add-dir", "--mcp-config", "--settings", "--append-system-prompt"}
                         then [] else [t]
  {
    assert [t][1..] == [] && Keep([]) == [];
  }

  // And of one that is followed by a value.
  lemma KeepBeforeValue(t: string, v: string)
    requires v == "" || v[0] != '-'
    ensures Keep([t, v]) == if t in {"--resume", "-r"} then []
                            else if t in {"--continue", "-c"} || "--resume=" <= t then [v]
                            else [t, v]
  {
    assert [t, v][1..] == [v] && [t, v][2..] == [] && Keep([]) == [];
    KeepAlone(v);
  }

  // The commands themselves.
  lemma ResumeExactly(kind: string, sid: string, commandLine: string)
    ensures Resume(kind, sid, commandLine).Some? <==> sid != "" && (kind == "claude" || kind == "codex")
    ensures sid != "" ==> Resume("codex", sid, commandLine) == Some(["codex", "resume", sid])
    ensures sid != "" ==> var out := Resume("claude", sid, commandLine).value;
      out[..3] == ["claude", "--resume", sid] && out[3..] == Keep(Arguments(commandLine))
  {
    hide Keep, Arguments;
    var kept := Keep(Arguments(commandLine));
    assert (["claude", "--resume", sid] + kept)[3..] == kept;
  }

  // Names that set a variable, and some that do not.
  lemma EnvAssignsAre()
    ensures IsEnvAssign("PATH=/bin") && IsEnvAssign("_A1=x=y") && IsEnvAssign("A= ")
    ensures !IsEnvAssign("path=/bin") && !IsEnvAssign("1A=x") && !IsEnvAssign("=x") && !IsEnvAssign("A") && !IsEnvAssign("A-B=x")
  {
    assert "PATH=/bin"[4] == '=' && "_A1=x=y"[3] == '=' && "A= "[1] == '=';
    hide *;
    NoAssign("path=/bin", 0);
    NoAssign("1A=x", 0);
    NoAssign("=x", 0);
    NoAssign("A", 1);
    NoAssign("A-B=x", 1);
  }

  // A name that goes wrong at `i`, before or where its first equals sign could be.
  lemma NoAssign(t: string, i: nat)
    requires i <= |t| && forall k :: 0 <= k < i ==> t[k] != '='
    requires i < |t| ==> (i == 0 && t[i] == '=') || !(t[i] == '_' || t[i] == '=' || 'A' <= t[i] <= 'Z' || ('0' <= t[i] <= '9' && i > 0))
    ensures !IsEnvAssign(t)
  {
  }

  // What is kept carries no second resume or continue flag, and every flag that
  // takes a value is followed by one.
  lemma {:induction false} KeepIsClean(tokens: seq<string>)
    ensures Clean(Keep(tokens))
  {
    hide IsResume, IsInlineResume, IsContinue, TakesValue, Dash;
    if tokens != [] {
      var t := tokens[0];
      KeepIsClean(tokens[1..]);
      if ValueFollows(tokens) {
        KeepIsClean(tokens[2..]);
        var v, rest := tokens[1], Keep(tokens[2..]);
        if !IsResume(t) && !IsInlineResume(t) && !IsContinue(t) && TakesValue(t) {
          NotAFlag(v);
          CleanCons(v, rest);
          CleanCons(t, [v] + rest);
          assert [t, v] + rest == [t] + ([v] + rest);
        }
      }
      if !IsResume(t) && !IsInlineResume(t) && !IsContinue(t) && !TakesValue(t) {
        CleanCons(t, Keep(tokens[1..]));
      }
    }
  }

  lemma NotAFlag(t: string)
    requires !Dash(t)
    ensures !IsResume(t) && !IsInlineResume(t) && !IsContinue(t) && !TakesValue(t)
  {
  }

  lemma CleanTail(tokens: seq<string>, n: nat)
    requires Clean(tokens) && n <= |tokens|
    ensures Clean(tokens[n..])
  {
    hide IsResume, IsInlineResume, IsContinue, TakesValue, Dash;
    var rest := tokens[n..];
    forall i | 0 <= i < |rest|
      ensures CleanAt(rest, i)
    {
      assert CleanAt(tokens, n + i) && rest[i] == tokens[n + i];
    }
  }

  // A clean list is kept as it is; any other loses something.
  lemma {:induction false} KeepsExactly(tokens: seq<string>)
    ensures Keep(tokens) == tokens <==> Clean(tokens)
  {
    KeepIsClean(tokens);
    if Clean(tokens) {
      CleanKept(tokens);
    }
  }

  lemma {:induction false} CleanKept(tokens: seq<string>)
    requires Clean(tokens)
    ensures Keep(tokens) == tokens
  {
    hide IsResume, IsInlineResume, IsContinue, TakesValue, Dash;
    if tokens != [] {
      assert tokens == [tokens[0]] + tokens[1..] && CleanAt(tokens, 0);
      if TakesValue(tokens[0]) {
        CleanTail(tokens, 2);
        CleanKept(tokens[2..]);
        assert tokens == [tokens[0], tokens[1]] + tokens[2..];
      } else {
        CleanTail(tokens, 1);
        CleanKept(tokens[1..]);
      }
    }
  }

  // Keeping works piece by piece: a list may be cut anywhere but between a flag
  // and the value it takes, and nothing before the cut changes what is kept
  // behind it.
  lemma {:induction false} KeepJoin(a: seq<string>, b: seq<string>)
    requires a == [] || b == [] || Dash(b[0]) || !(IsResume(a[|a| - 1]) || TakesValue(a[|a| - 1]))
    ensures Keep(a + b) == Keep(a) + Keep(b)
  {
    hide IsResume, IsInlineResume, IsContinue, TakesValue, Dash;
    if a == [] {
      assert a + b == b;
    } else if b == [] {
      assert a + b == a;
    } else {
      assert (a + b)[1..] == a[1..] + b;
      KeepJoin(a[1..], b);
      if |a| > 1 {
        assert (a + b)[1] == a[1] && (a + b)[2..] == a[2..] + b;
        KeepJoin(a[2..], b);
      }
    }
  }

  // One turn of the loop: how many tokens it consumes and what it keeps of them.
  datatype Turn = Turn(count: nat, kept: seq<string>)

  function FirstTurn(tokens: seq<string>): (r: Turn)
    requires tokens != []
    ensures 1 <= r.count <= |tokens|
  {
    var t, value := tokens[0], ValueFollows(tokens);
    if IsResume(t) then Turn(if value then 2 else 1, [])
    else if IsInlineResume(t) || IsContinue(t) then Turn(1, [])
    else if TakesValue(t) then if value then Turn(2, [t, tokens[1]]) else Turn(1, [])
    else Turn(1, [t])
  }

  lemma KeepTurn(tokens: seq<string>)
    requires tokens != []
    ensures Keep(tokens) == FirstTurn(tokens).kept + Keep(tokens[FirstTurn(tokens).count..])
  {
    hide IsResume, IsInlineResume, IsContinue, TakesValue, ValueFollows;
  }

  lemma TurnKeepsFlag(tokens: seq<string>, t: string)
    requires tokens != [] && Dash(t) && !IsResume(t) && !IsInlineResume(t) && !IsContinue(t) && !TakesValue(t)
    ensures multiset(FirstTurn(tokens).kept)[t] == multiset(tokens[..FirstTurn(tokens).count])[t]
  {
    hide IsResume, IsInlineResume, IsContinue, TakesValue, Dash;
    var n := FirstTurn(tokens).count;
    if n == 1 {
      assert tokens[..1] == [tokens[0]];
    } else {
      assert tokens[..2] == [tokens[0], tokens[1]];
    }
  }

  // A flag of its own kind is kept as often as it occurs, wherever it stands.
  lemma {:induction false} OtherFlagsStay(tokens: seq<string>, t: string)
    requires Dash(t) && !IsResume(t) && !IsInlineResume(t) && !IsContinue(t) && !TakesValue(t)
    ensures multiset(Keep(tokens))[t] == multiset(tokens)[t]
    decreases |tokens|
  {
    if tokens != [] {
      hide *;
      var n := FirstTurn(tokens).count;
      KeepTurn(tokens);
      TurnKeepsFlag(tokens, t);
      OtherFlagsStay(tokens[n..], t);
      assert tokens == tokens[..n] + tokens[n..];
    }
  }

  lemma {:induction false} KeepWords(tokens: seq<string>)
    requires AllWords(tokens)
    ensures AllWords(Keep(tokens))
  {
    if tokens != [] {
      KeepWords(tokens[1..]);
      if |tokens| > 1 {
        KeepWords(tokens[2..]);
      }
    }
  }

  lemma {:induction false} SkipWords(tokens: seq<string>)
    requires AllWords(tokens)
    ensures AllWords(SkipPrefix(tokens))
  {
    if tokens != [] && (IsEnvAssign(tokens[0]) || IsWrapper(tokens[0])) {
      SkipWords(tokens[1..]);
    }
  }

  // Assignments and these four wrappers in front are skipped, then the program, and
  // nothing else.
  lemma {:induction false} ArgumentsExactly(prefix: seq<string>, program: string, args: seq<string>)
    requires AllWords(prefix + [program] + args)
    requires forall i :: 0 <= i < |prefix| ==> IsEnvAssign(prefix[i]) || prefix[i] in {"sudo", "time", "nice", "env"}
    requires !IsEnvAssign(program) && program !in {"sudo", "time", "nice", "env"}
    ensures Arguments(Join(prefix + [program] + args)) == args
  {
    FieldsOfJoin(prefix + [program] + args);
    SkipsPrefix(prefix, program, args);
    assert ([program] + args)[1..] == args;
    hide Fields, Join, Word;
  }

  lemma {:induction false} SkipsPrefix(prefix: seq<string>, program: string, args: seq<string>)
    requires forall i :: 0 <= i < |prefix| ==> IsEnvAssign(prefix[i]) || prefix[i] in {"sudo", "time", "nice", "env"}
    requires !IsEnvAssign(program) && program !in {"sudo", "time", "nice", "env"}
    ensures SkipPrefix(prefix + [program] + args) == [program] + args
  {
    hide IsEnvAssign;
    if prefix == [] {
      assert [] + [program] + args == [program] + args;
    } else {
      SkipsPrefix(prefix[1..], program, args);
      assert (prefix + [program] + args)[1..] == prefix[1..] + [program] + args;
    }
  }

  // The arguments read back from a produced claude command.
  lemma ReadBack(sid: string, commandLine: string)
    requires Word(sid)
    ensures var kept := Keep(Arguments(commandLine));
      Arguments(Join(["claude", "--resume", sid] + kept)) == ["--resume", sid] + kept && Clean(kept)
  {
    hide Keep, Clean, Word;
    var args := Arguments(commandLine);
    FieldsAreWords(commandLine);
    SkipWords(Fields(commandLine));
    assert AllWords(args);
    KeepWords(args);
    KeepIsClean(args);
    ReadBackTokens(sid, Keep(args));
  }

  lemma ArgumentsOfJoin(tokens: seq<string>)
    requires AllWords(tokens) && tokens != [] && !IsEnvAssign(tokens[0]) && !IsWrapper(tokens[0])
    ensures Arguments(Join(tokens)) == tokens[1..]
  {
    hide Word, Fields, Join, IsEnvAssign, IsWrapper;
    FieldsOfJoin(tokens);
  }

  lemma ClaudeIsProgram()
    ensures Word("claude") && Word("--resume") && !IsEnvAssign("claude") && !IsWrapper("claude")
  {
  }

  lemma ReadBackTokens(sid: string, kept: seq<string>)
    requires Word(sid) && AllWords(kept)
    ensures Arguments(Join(["claude", "--resume", sid] + kept)) == ["--resume", sid] + kept
  {
    var out := ["claude", "--resume", sid] + kept;
    hide Word, Arguments, Join, IsEnvAssign, IsWrapper;
    ClaudeIsProgram();
    ThreeWords("claude", "--resume", sid, kept);
    ArgumentsOfJoin(out);
    assert out[1..] == ["--resume", sid] + kept;
  }

  lemma ThreeWords(a: string, b: string, c: string, rest: seq<string>)
    requires Word(a) && Word(b) && Word(c) && AllWords(rest)
    ensures AllWords([a, b, c] + rest)
  {
  }

  // Whether a session ID that looks like a flag is dropped when it is read back.
  predicate DroppedAsFlag(sid: string, kept: seq<string>) {
    || IsInlineResume(sid) || IsContinue(sid)
    || ((IsResume(sid) || TakesValue(sid)) && (kept == [] || Dash(kept[0])))
  }

  // Feeding a produced claude command back as the recorded command line yields
  // the same command for every session ID without a leading dash, and otherwise
  // exactly when the ID is dropped as a flag.
  lemma ResumeIsFixpointExactly(sid: string, commandLine: string)
    requires Word(sid)
    ensures Resume("claude", sid, commandLine).Some?
    ensures var out := Resume("claude", sid, commandLine).value;
      Resume("claude", sid, Join(out)) == Some(out) <==> !Dash(sid) || DroppedAsFlag(sid, Keep(Arguments(commandLine)))
  {
    assert sid != "";
    hide Arguments, Word, Join;
    var kept := Keep(Arguments(commandLine));
    ReadBack(sid, commandLine);
    var again := ["--resume", sid] + kept;
    CleanKept(kept);
    assert again[1..] == [sid] + kept && again[2..] == kept;
    KeepAfter(sid, kept);
    var out := ["claude", "--resume", sid] + kept;
    assert out[3..] == kept && (["claude", "--resume", sid] + Keep(again))[3..] == Keep(again);
  }

  lemma KeepAfter(sid: string, kept: seq<string>)
    requires Clean(kept)
    ensures Keep([sid] + kept) == kept <==> DroppedAsFlag(sid, kept)
  {
    var again := [sid] + kept;
    assert again[1..] == kept;
    CleanKept(kept);
    if (IsResume(sid) || TakesValue(sid)) && kept != [] && !Dash(kept[0]) {
      NotAFlag(kept[0]);
      CleanTail(kept, 1);
      CleanKept(kept[1..]);
      assert again[2..] == kept[1..];
    }
  }

  // What one restart makes of the kept flags.
  function AfterRestart(sid: string, kept: seq<string>): seq<string> {
    if !Dash(sid) || IsInlineResume(sid) || IsContinue(sid) then kept
    else if IsResume(sid) then if kept != [] && !Dash(kept[0]) then kept[1..] else kept
    else if TakesValue(sid) then if kept != [] && !Dash(kept[0]) then [sid] + kept else kept
    else [sid] + kept
  }

  lemma RestartIs(sid: string, kept: seq<string>)
    requires Clean(kept)
    ensures Keep(["--resume", sid] + kept) == AfterRestart(sid, kept) && Clean(AfterRestart(sid, kept))
  {
    var again := ["--resume", sid] + kept;
    assert again[1..] == [sid] + kept && again[2..] == kept;
    KeepIsClean(again);
    hide Clean;
    CleanKept(kept);
    var next := [sid] + kept;
    assert next[1..] == kept;
    if Dash(sid) && kept != [] && !Dash(kept[0]) {
      NotAFlag(kept[0]);
      CleanTail(kept, 1);
      CleanKept(kept[1..]);
      assert next[2..] == kept[1..] && kept == [kept[0]] + kept[1..];
    }
  }

  // The flags a command carries after `n` restarts, each of which feeds the last
  // command back.
  function KeptAfter(sid: string, commandLine: string, n: nat): seq<string> {
    if n == 0 then Keep(Arguments(commandLine))
    else Keep(Arguments(Join(["claude", "--resume", sid] + KeptAfter(sid, commandLine, n - 1))))
  }

  lemma {:induction false} KeptAfterIs(sid: string, commandLine: string, n: nat)
    requires Word(sid)
    ensures Clean(KeptAfter(sid, commandLine, n)) && AllWords(KeptAfter(sid, commandLine, n))
    ensures KeptAfter(sid, commandLine, n + 1) == AfterRestart(sid, KeptAfter(sid, commandLine, n))
  {
    hide Arguments, Join, Keep, Clean, Word, AfterRestart;
    var kept := KeptAfter(sid, commandLine, n);
    var line := if n == 0 then commandLine else Join(["claude", "--resume", sid] + KeptAfter(sid, commandLine, n - 1));
    assert kept == Keep(Arguments(line));
    ArgumentsAreWords(line);
    KeepWords(Arguments(line));
    KeepIsClean(Arguments(line));
    ReadBackTokens(sid, kept);
    RestartIs(sid, kept);
  }

  lemma ArgumentsAreWords(commandLine: string)
    ensures AllWords(Arguments(commandLine))
  {
    FieldsAreWords(commandLine);
    SkipWords(Fields(commandLine));
  }

  // The command grows by one token at every restart exactly when the ID has a
  // leading dash and is no flag to resume, to continue or to take a value.
  lemma GrowsForeverExactly(sid: string, commandLine: string)
    requires Word(sid)
    ensures (forall n: nat :: |KeptAfter(sid, commandLine, n + 1)| == |KeptAfter(sid, commandLine, n)| + 1)
      <==> Dash(sid) && !IsResume(sid) && !IsInlineResume(sid) && !IsContinue(sid) && !TakesValue(sid)
  {
    hide KeptAfter;
    forall n: nat
      ensures KeptAfter(sid, commandLine, n + 1) == AfterRestart(sid, KeptAfter(sid, commandLine, n))
    {
      KeptAfterIs(sid, commandLine, n);
    }
    var zero, one := KeptAfter(sid, commandLine, 0), KeptAfter(sid, commandLine, 1);
    assert KeptAfter(sid, commandLine, 0 + 1) == one;
    assert KeptAfter(sid, commandLine, 1 + 1) == AfterRestart(sid, one);
    if TakesValue(sid) {
      assert |AfterRestart(sid, one)| == |one| || |one| == |zero|;
    }
  }

  // Once read back, an ID that takes a value changes the command at most once.
  lemma ValueFlagSettles(sid: string, commandLine: string, n: nat)
    requires Word(sid) && TakesValue(sid) && n > 0
    ensures KeptAfter(sid, commandLine, n + 1) == KeptAfter(sid, commandLine, n)
  {
    hide KeptAfter;
    KeptAfterIs(sid, commandLine, n - 1);
    KeptAfterIs(sid, commandLine, n);
  }

  lemma FooLine()
    ensures Keep(Arguments("claude foo")) == ["foo"]
  {
    var tokens := ["claude", "foo"];
    assert Join(tokens) == "claude foo" by {
      assert tokens[..1] == ["claude"];
    }
    assert Word("foo") && Keep(["foo"]) == ["foo"];
    hide Word, Arguments, Join, IsEnvAssign, IsWrapper, Keep;
    ClaudeIsProgram();
    ArgumentsOfJoin(tokens);
    assert tokens[1..] == ["foo"];
  }

  lemma FooOnce(sid: string)
    requires Word(sid)
    ensures KeptAfter(sid, "claude foo", 0) == ["foo"] && KeptAfter(sid, "claude foo", 1) == AfterRestart(sid, ["foo"])
  {
    hide Arguments, Keep, Word, AfterRestart;
    FooLine();
    KeptAfterIs(sid, "claude foo", 0);
  }

  // Each kind at a concrete command line: stable, growing, growing once, and
  // shrinking.
  lemma RestartsOnce()
    ensures KeptAfter("x", "claude foo", 1) == ["foo"] && KeptAfter("-x", "claude foo", 1) == ["-x", "foo"]
    ensures KeptAfter("--model", "claude foo", 1) == ["--model", "foo"] && KeptAfter("-r", "claude foo", 1) == []
  {
    hide KeptAfter;
    FooOnce("x");
    FooOnce("-x");
    FooOnce("--model");
    FooOnce("-r");
  }

  // The source's loops.

  method FieldsOf(s: string) returns (tokens: seq<string>)
    ensures tokens == Fields(s)
  {
    tokens := [];
    var word := "";
    for i := 0 to |s|
      invariant tokens == Words(s[..i]) && word == LastWord(s[..i])
    {
      assert s[..i + 1][..i] == s[..i];
      if !IsSpace(s[i]) {
        word := word + [s[i]];
      } else if word != "" {
        tokens, word := tokens + [word], "";
      }
    }
    assert s[..|s|] == s;
    if word != "" {
      tokens := tokens + [word];
    }
  }

  method EnvAssign(t: string) returns (yes: bool)
    ensures yes == IsEnvAssign(t)
  {
    var eq := 0;
    while eq < |t| && t[eq] != '='
      invariant 0 <= eq <= |t| && forall i :: 0 <= i < eq ==> t[i] != '='
    {
      eq := eq + 1;
    }
    if eq == 0 || eq == |t| {
      return false;
    }
    for i := 0 to eq
      invariant forall k :: 0 <= k < i ==> t[k] == '_' || 'A' <= t[k] <= 'Z' || ('0' <= t[k] <= '9' && k > 0)
    {
      if !(t[i] == '_' || 'A' <= t[i] <= 'Z' || ('0' <= t[i] <= '9' && i > 0)) {
        return false;
      }
    }
    yes := true;
  }

  method ClaudePreservedFlags(commandLine: string) returns (kept: seq<string>)
    ensures kept == Keep(Arguments(commandLine))
  {
    assert Keep([]) == [];
    hide Keep, IsEnvAssign;
    var tokens := FieldsOf(commandLine);
    while tokens != []
      invariant SkipPrefix(tokens) == SkipPrefix(Fields(commandLine))
      decreases |tokens|
    {
      var assign := EnvAssign(tokens[0]);
      if !assign && !IsWrapper(tokens[0]) {
        break;
      }
      tokens := tokens[1..];
    }
    kept := [];
    if tokens == [] {
      return;
    }
    tokens := tokens[1..];
    kept := KeepFlags(tokens);
  }

  method KeepFlags(tokens: seq<string>) returns (kept: seq<string>)
    ensures kept == Keep(tokens)
  {
    hide IsResume, IsInlineResume, IsContinue, TakesValue, Dash, Keep;
    kept := [];
    var i := 0;
    while i < |tokens|
      invariant i <= |tokens| && kept + Keep(tokens[i..]) == Keep(tokens)
    {
      var t := tokens[i];
      var value := i + 1 < |tokens| && !Dash(tokens[i + 1]);
      ghost var turn, was := FirstTurn(tokens[i..]), kept;
      KeepTurn(tokens[i..]);
      assert tokens[i..][turn.count..] == tokens[i + turn.count..];
      assert value == ValueFollows(tokens[i..]);
      if IsResume(t) {
        i := i + if value then 2 else 1;
      } else if IsInlineResume(t) || IsContinue(t) {
        i := i + 1;
      } else if TakesValue(t) {
        if value {
          kept := kept + [t, tokens[i + 1]];
          i := i + 1;
        }
        i := i + 1;
      } else {
        kept := kept + [t];
        i := i + 1;
      }
      assert kept == was + turn.kept;
    }
    NothingKept();
    assert tokens[i..] == [] && kept + [] == kept;
  }

  lemma NothingKept()
    ensures Keep([]) == []
  {
  }

  method ComputeResumeArgs(kind: string, sid: string, commandLine: string) returns (args: Option<seq<string>>)
    ensures args == Resume(kind, sid, commandLine)
  {
    if kind !in {"claude", "codex"} || sid == "" {
      return None;
    }
    if kind == "codex" {
      return Some(["codex", "resume", sid]);
    }
    var kept := ClaudePreservedFlags(commandLine);
    args := Some(["claude", "--resume", sid] + kept);
  }
}
