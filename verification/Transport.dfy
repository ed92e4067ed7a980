/** runtime/x86_on_arm/execution.py: a command is printed as a shell script; reading the
    script runs exactly that command. */
module Transport {
  import opened Options
  import opened Shell

  type Dict = seq<(string, string)>

  const BRIDGE: seq<string> := [
    "DISPLAY", "XAUTHORITY", "XDG_RUNTIME_DIR", "GTK_IM_MODULE", "QT_IM_MODULE", "XRE_PROFILE_PATH",
    "MESA_LOADER_DRIVER_OVERRIDE"
  ]

  const BASH_SCRIPT := "exec -a \"$1\" -- \"${@:2}\""

  const COMMAND: seq<string> := ["/usr/bin/env", "-i", "--"]

  const SHELL: seq<string> := ["/bin/bash", "--noprofile", "--norc", "-c", BASH_SCRIPT, "x86-arm-exec"]

  function Assignments(environment: Dict): seq<string> {
    if environment == [] then []
    else [environment[0].0 + "=" + environment[0].1] + Assignments(environment[1..])
  }

  /** command_script */
  function CommandScript(
    program: string, argv0: string, arguments: seq<string>, environment: Dict, cwd: string, bridge: bool): string
  {
    var inherited := if bridge then BridgedJoin(BRIDGE) else "";
    "set -eu\ncd -- "
    + Quote(cwd)
    + "\nexec "
    + QuotedJoin(COMMAND)
    + " "
    + inherited
    + " "
    + QuotedJoin(Assignments(environment) + SHELL + [argv0, program] + arguments)
    + "\n"
  }

  // ---- what running the script does

  /** A process image: the working directory asked for, the file executed, its argument
      vector, and the environment that env(1) hands to the shell in front of it. */
  datatype Image = Image(cwd: string, program: string, argv: seq<string>, env: Env)

  function Before(s: string, c: char): (b: string)
    ensures b <= s
    ensures c !in b
    ensures |b| < |s| ==> s[|b|] == c
  {
    if s == "" || s[0] == c then "" else [s[0]] + Before(s[1..], c)
  }

  /** env(1): leading operands with "=" are assignments, the rest is the command. */
  function EnvOperands(operands: seq<string>, env: Env): Option<(Env, seq<string>)> {
    if operands == [] then None
    else if '=' !in operands[0] then Some((env, operands))
    else
      var name := Before(operands[0], '=');
      if name == "" then None
      else
        assert |name| < |operands[0]|;
        EnvOperands(operands[1..], env[name := operands[0][|name| + 1..]])
  }

  /** `exec -a NAME -- FILE ARG...` */
  function ExecNamed(words: seq<string>): Option<(string, seq<string>)> {
    if |words| > 4 && words[0] == "exec" && words[1] == "-a" && words[3] == "--"
    then Some((words[4], [words[2]] + words[5..])) else None
  }

  /** `/bin/bash --noprofile --norc -c SCRIPT NAME ARG...`, for a script of one exec. */
  function Bash(words: seq<string>): Option<(string, seq<string>)> {
    if |words| > 5 && words[0] == "/bin/bash" && words[1] == "--noprofile" && words[2] == "--norc" && words[3] == "-c"
    then
      var commands := Read(words[4], Plain, Reading([], [], None), map[], words[6..]);
      if commands.Some? && |commands.value| == 1 then ExecNamed(commands.value[0]) else None
    else None
  }

  /** env(1): what its options make of the environment it was started in. "-i" empties it,
      "--" ends the options, and no other option is understood. */
  function EnvOptions(words: seq<string>, env: Env): Option<(Env, seq<string>)> {
    if words == [] || words[0] == "" || words[0][0] != '-' then Some((env, words))
    else if words[0] == "--" then Some((env, words[1..]))
    else if words[0] == "-i" then EnvOptions(words[1..], map[])
    else None
  }

  /** `exec /usr/bin/env [OPTION...] OPERAND...`, in a shell whose environment is `outer`. */
  function ExecEnv(cwd: string, words: seq<string>, outer: Env): Option<Image> {
    if |words| > 1 && words[0] == "exec" && words[1] == "/usr/bin/env" then
      var start := EnvOptions(words[2..], outer);
      if start.None? then None
      else
        var e := EnvOperands(start.value.1, start.value.0);
        if e.None? then None
        else
          var b := Bash(e.value.1);
          if b.None? then None else Some(Image(cwd, b.value.0, b.value.1, e.value.0))
    else None
  }

  /** The script, run by a shell whose own environment is `outer`. */
  function Run(script: string, outer: Env): Option<Image> {
    var commands := Read(script, Plain, Reading([], [], None), outer, []);
    if commands.Some? && |commands.value| == 3
       && commands.value[0] == ["set", "-eu"]
       && |commands.value[1]| == 3 && commands.value[1][0] == "cd" && commands.value[1][1] == "--"
    then ExecEnv(commands.value[1][2], commands.value[2], outer)
    else None
  }

  // ---- what it should do

  function EnvOf(environment: Dict): Env {
    if environment == [] then map[]
    else map[environment[0].0 := environment[0].1] + EnvOf(environment[1..])
  }

  function BridgeEnv(names: seq<string>, outer: Env): Env {
    map n | n in names :: ValueOrEmpty(outer, n)
  }

  /** The seven variables of the VM's session that a program may see. */
  predicate OfSession(name: string) {
    name in {
      "DISPLAY", "XAUTHORITY", "XDG_RUNTIME_DIR", "GTK_IM_MODULE", "QT_IM_MODULE", "XRE_PROFILE_PATH",
      "MESA_LOADER_DRIVER_OVERRIDE"
    }
  }

  /** The environment is exactly the given one, over those seven if they are bridged; nothing
      else of the outer shell's is left. */
  ghost predicate IntendedEnv(env: Env, environment: Dict, bridge: bool, outer: Env) {
    && (forall name :: name in env <==> name in EnvOf(environment) || (bridge && OfSession(name)))
    && forall name :: name in env ==>
         env[name] == if name in EnvOf(environment) then EnvOf(environment)[name] else ValueOrEmpty(outer, name)
  }

  ghost predicate IsIntended(
    image: Option<Image>, program: string, argv0: string, arguments: seq<string>, environment: Dict, cwd: string,
      bridge: bool, outer: Env)
  {
    && image.Some?
    && image.value.cwd == cwd && image.value.program == program && image.value.argv == [argv0] + arguments
    && IntendedEnv(image.value.env, environment, bridge, outer)
  }

  predicate AllNulFree(words: seq<string>) {
    forall w :: w in words ==> NulFree(w)
  }

  predicate Variable(name: string) {
    name != "" && '=' !in name
  }

  predicate WithoutNul(program: string, argv0: string, arguments: seq<string>, environment: Dict, cwd: string) {
    && NulFree(program) && NulFree(argv0) && NulFree(cwd) && AllNulFree(arguments)
    && forall v :: v in environment ==> NulFree(v.0) && NulFree(v.1)
  }

  predicate WithVariables(environment: Dict) {
    forall v :: v in environment ==> Variable(v.0)
  }

  // ---- reading the script

  lemma ReadLine(words: seq<string>, rest: string, r: Reading, env: Env, args: seq<string>)
    requires words != [] && AllNulFree(words) && r.word.None?
    ensures Read(QuotedJoin(words) + ("\n" + rest), Plain, r, env, args)
         == Read(rest, Plain, Reading(r.commands + [r.words + words], [], None), env, args)
  {
    hide QuotedJoin;
    ReadQuotedJoin(words, "\n" + rest, r, env, args);
    assert ("\n" + rest)[1..] == rest;
    assert words[..|words| - 1] + [words[|words| - 1]] == words;
    assert r.words + words[..|words| - 1] + [words[|words| - 1]] == r.words + words;
  }

  lemma PlainWords()
    ensures Quote("set") == "set" && Quote("-eu") == "-eu" && Quote("cd") == "cd" && Quote("--") == "--"
    ensures Quote("exec") == "exec"
  {
  }

  lemma FixedLines(cwd: string)
    ensures QuotedJoin(["set", "-eu"]) == "set -eu"
    ensures QuotedJoin(["cd", "--", cwd]) == "cd -- " + Quote(cwd)
    ensures QuotedJoin(["exec"] + COMMAND) == "exec " + QuotedJoin(COMMAND)
  {
    hide Quote;
    PlainWords();
    assert ["set", "-eu"][1..] == ["-eu"];
    assert QuotedJoin(["-eu"]) == "-eu";
    assert ["cd", "--", cwd][1..] == ["--", cwd] && ["--", cwd][1..] == [cwd];
    assert QuotedJoin(["--", cwd]) == "--" + " " + Quote(cwd);
    assert "cd" + " " + ("--" + " " + Quote(cwd)) == "cd -- " + Quote(cwd);
    assert (["exec"] + COMMAND)[1..] == COMMAND;
  }

  /** The script is three lines of quoted words, the bridge standing in the third. */
  lemma ScriptShape(
    program: string, argv0: string, arguments: seq<string>, environment: Dict, cwd: string, bridge: bool)
    ensures var names := if bridge then BRIDGE else [];
            var words := Assignments(environment) + SHELL + [argv0, program] + arguments;
            CommandScript(program, argv0, arguments, environment, cwd, bridge)
            == QuotedJoin(["set", "-eu"])
             + ("\n" + (QuotedJoin(["cd", "--", cwd])
             + ("\n" + (QuotedJoin(["exec"] + COMMAND)
               + (" " + (BridgedJoin(names) + (" " + (QuotedJoin(words) + "\n"))))))))
  {
    hide Quote, BridgedJoin, Assignments, QuotedJoin;
    FixedLines(cwd);
    assert BridgedJoin([]) == "" by { EmptyBridge(); }
  }

  lemma EmptyBridge()
    ensures BridgedJoin([]) == ""
  {
  }

  lemma ReadScript(
    program: string, argv0: string, arguments: seq<string>, environment: Dict, cwd: string, bridge: bool, outer: Env)
    requires WithoutNul(program, argv0, arguments, environment, cwd)
    ensures var names := if bridge then BRIDGE else [];
            var words := Assignments(environment) + SHELL + [argv0, program] + arguments;
            Read(CommandScript(program, argv0, arguments, environment, cwd, bridge), Plain, Reading([], [], None),
              outer, [])
            == Some([["set", "-eu"], ["cd", "--", cwd], ["exec"] + COMMAND + BridgedWords(names, outer) + words])
  {
    hide Read, Quote, QuotedJoin, BridgedJoin, Assignments, BridgedWords;
    var names := if bridge then BRIDGE else [];
    var words := Assignments(environment) + SHELL + [argv0, program] + arguments;
    ScriptShape(program, argv0, arguments, environment, cwd, bridge);
    var tail := QuotedJoin(words) + "\n";
    var line3 := QuotedJoin(["exec"] + COMMAND) + (" " + (BridgedJoin(names) + (" " + tail)));
    var line2 := QuotedJoin(["cd", "--", cwd]) + ("\n" + line3);
    var r0 := Reading([], [], None);
    var r1 := Reading([["set", "-eu"]], [], None);
    var r2 := Reading([["set", "-eu"], ["cd", "--", cwd]], [], None);
    WordsNulFree(program, argv0, arguments, environment, cwd);
    BridgeIdentifiers();
    ReadLine(["set", "-eu"], line2, r0, outer, []);
    assert r0.words + ["set", "-eu"] == ["set", "-eu"] && r1.words + ["cd", "--", cwd] == ["cd", "--", cwd];
    assert r0.commands + [["set", "-eu"]] == r1.commands;
    ReadLine(["cd", "--", cwd], line3, r1, outer, []);
    assert r1.commands + [["cd", "--", cwd]] == r2.commands;
    ThirdLine(names, words, r2, outer);
    var last := ["exec"] + COMMAND + BridgedWords(names, outer) + words;
    assert ["exec"] + COMMAND + BridgedWords(names, outer) + words == last;
    assert r2.commands + [last] == [["set", "-eu"], ["cd", "--", cwd], last];
  }

  lemma BridgeIdentifiers()
    ensures forall n :: n in BRIDGE ==> Identifier(n)
  {
  }

  lemma {:induction false} AssignmentsNulFree(environment: Dict)
    requires forall v :: v in environment ==> NulFree(v.0) && NulFree(v.1)
    ensures AllNulFree(Assignments(environment))
  {
    if environment != [] {
      assert environment[0] in environment;
      assert forall v :: v in environment[1..] ==> v in environment;
      AssignmentsNulFree(environment[1..]);
    }
  }

  lemma WordsNulFree(program: string, argv0: string, arguments: seq<string>, environment: Dict, cwd: string)
    requires WithoutNul(program, argv0, arguments, environment, cwd)
    ensures AllNulFree(Assignments(environment) + SHELL + [argv0, program] + arguments)
    ensures AllNulFree(["cd", "--", cwd])
  {
    AssignmentsNulFree(environment);
    assert AllNulFree(SHELL);
  }

  lemma ThirdLine(names: seq<string>, words: seq<string>, r: Reading, outer: Env)
    requires words != [] && AllNulFree(words) && r.words == [] && r.word.None?
    requires forall n :: n in names ==> Identifier(n)
    ensures Read(QuotedJoin(["exec"] + COMMAND)
            + (" " + (BridgedJoin(names) + (" " + (QuotedJoin(words) + "\n")))), Plain, r, outer, [])
         == Some(r.commands + [["exec"] + COMMAND + BridgedWords(names, outer) + words])
  {
    hide Quote, QuotedJoin, BridgedJoin, BridgedWords, Read;
    var exec := ["exec"] + COMMAND;
    var tail := QuotedJoin(words) + "\n";
    var rest := BridgedJoin(names) + (" " + tail);
    ReadQuotedJoin(exec, " " + rest, r, outer, []);
    assert [] + exec[..3] + [exec[3]] == exec;
    ReadSpace(rest, Reading(r.commands, [] + exec[..3], Some(exec[3])), outer, []);
    var r1 := Reading(r.commands, exec, None);
    ReadBridgedJoin(names, tail, r1, outer, []);
    var r2 := Reading(r.commands, exec + BridgedWords(names, outer), None);
    assert "\n" == "\n" + "";
    ReadLine(words, "", r2, outer, []);
    ReadEnd(Reading(r.commands + [r2.words + words], [], None), outer, []);
  }

  lemma ReadEnd(r: Reading, env: Env, args: seq<string>)
    requires r.words == [] && r.word.None?
    ensures Read("", Plain, r, env, args) == Some(r.commands)
  {
  }

  // ---- env(1) and the inner shell

  lemma {:induction false} BeforeStops(name: string, rest: string, c: char)
    requires c !in name
    ensures Before(name + ([c] + rest), c) == name
  {
    if name == "" {
      assert name + ([c] + rest) == [c] + rest;
    } else {
      assert (name + ([c] + rest))[1..] == name[1..] + ([c] + rest);
      BeforeStops(name[1..], rest, c);
    }
  }

  lemma OneAssignment(name: string, value: string, rest: seq<string>, env: Env)
    requires Variable(name)
    ensures EnvOperands([name + "=" + value] + rest, env) == EnvOperands(rest, env[name := value])
  {
    var word := name + "=" + value;
    assert word == name + (['='] + value);
    BeforeStops(name, value, '=');
    assert word[|name| + 1..] == value && word[|name|] == '=';
    assert ([word] + rest)[1..] == rest;
  }

  lemma {:induction false} AssignmentsApply(environment: Dict, rest: seq<string>, env: Env)
    requires forall v :: v in environment ==> Variable(v.0)
    ensures EnvOperands(Assignments(environment) + rest, env) == EnvOperands(rest, env + EnvOf(environment))
    decreases |environment|
  {
    hide EnvOperands;
    if environment == [] {
      assert Assignments(environment) + rest == rest && env + EnvOf(environment) == env;
    } else {
      var (name, value) := environment[0];
      assert environment[0] in environment;
      var tail := Assignments(environment[1..]) + rest;
      assert Assignments(environment) + rest == [name + "=" + value] + tail;
      OneAssignment(name, value, tail, env);
      assert forall v :: v in environment[1..] ==> v in environment;
      AssignmentsApply(environment[1..], rest, env[name := value]);
      assert env[name := value] + EnvOf(environment[1..]) == env + EnvOf(environment);
    }
  }

  function BridgeDict(names: seq<string>, outer: Env): Dict {
    if names == [] then [] else [(names[0], ValueOrEmpty(outer, names[0]))] + BridgeDict(names[1..], outer)
  }

  /** The bridged words are assignments of the outer shell's values. */
  lemma {:induction false} BridgeIsAssignments(names: seq<string>, outer: Env)
    requires forall n :: n in names ==> Variable(n)
    ensures Assignments(BridgeDict(names, outer)) == BridgedWords(names, outer)
    ensures EnvOf(BridgeDict(names, outer)) == BridgeEnv(names, outer)
    ensures forall v :: v in BridgeDict(names, outer) ==> Variable(v.0)
  {
    hide ValueOrEmpty;
    if names != [] {
      assert names[0] in names && forall n :: n in names[1..] ==> n in names;
      BridgeIsAssignments(names[1..], outer);
      var pair := (names[0], ValueOrEmpty(outer, names[0]));
      var dict := BridgeDict(names, outer);
      assert dict[0] == pair && dict[1..] == BridgeDict(names[1..], outer);
      BridgeEnvStep(names, outer);
    }
  }

  lemma BridgeEnvStep(names: seq<string>, outer: Env)
    requires names != []
    ensures BridgeEnv(names, outer) ==
            (if names[0] in names[1..] then BridgeEnv(names[1..], outer)
             else map[names[0] := ValueOrEmpty(outer, names[0])] + BridgeEnv(names[1..], outer))
    ensures BridgeEnv(names, outer) == map[names[0] := ValueOrEmpty(outer, names[0])] + BridgeEnv(names[1..], outer)
  {
    hide ValueOrEmpty;
    assert forall n :: n in names <==> n == names[0] || n in names[1..];
  }

  /** The inner script turns its positional parameters into file and argument vector. */
  lemma ReadInnerScript(argv0: string, program: string, arguments: seq<string>)
    ensures Read(BASH_SCRIPT, Plain, Reading([], [], None), map[], [argv0, program] + arguments)
         == Some([["exec", "-a", argv0, "--", program] + arguments])
  {
    hide Read, Quote, QuotedJoin;
    var args := [argv0, program] + arguments;
    var last := ALL_FROM_TWO;
    var mid := "\"$1\"" + (" " + ("--" + (" " + last)));
    InnerHead();
    assert BASH_SCRIPT == QuotedJoin(["exec", "-a"]) + (" " + mid);
    var r0 := Reading([], [], None);
    ReadQuotedJoin(["exec", "-a"], " " + mid, r0, map[], args);
    ReadSpace(mid, Reading([], [] + ["exec", "-a"][..1], Some("-a")), map[], args);
    var r1 := Reading([], ["exec", "-a"], None);
    assert [] + ["exec", "-a"][..1] + ["-a"] == r1.words;
    ReadFirst(" " + ("--" + (" " + last)), r1, args);
    ReadSpace("--" + (" " + last), r1.(word := Some(argv0)), map[], args);
    var r2 := Reading([], ["exec", "-a", argv0], None);
    assert r1.words + [argv0] == r2.words;
    assert "--" + (" " + last) == Quote("--") + (" " + last);
    ReadQuote("--", " " + last, r2, map[], args);
    ReadSpace(last, r2.(word := Some("--")), map[], args);
    var r3 := Reading([], ["exec", "-a", argv0, "--"], None);
    assert r2.words + ["--"] == r3.words;
    ReadRest(r3, args);
    assert args[1..] == [program] + arguments;
    assert r3.words + args[1..] == ["exec", "-a", argv0, "--", program] + arguments;
  }

  lemma InnerHead()
    ensures QuotedJoin(["exec", "-a"]) == "exec -a" && Quote("--") == "--"
  {
    assert ["exec", "-a"][1..] == ["-a"];
  }

  lemma ReadFirst(rest: string, r: Reading, args: seq<string>)
    requires args != [] && r.word.None?
    ensures Read("\"$1\"" + rest, Plain, r, map[], args) == Read(rest, Plain, r.(word := Some(args[0])), map[], args)
  {
    var t := "\"$1\"" + rest;
    var q := "\"" + rest;
    assert t[1..] == "$1" + q && ("$1" + q)[1..] == "1" + q && ("1" + q)[1..] == q && q[1..] == rest;
    assert ALL_FROM_TWO[2] == '{' && t[2] == '1';
    assert Read(t, Plain, r, map[], args) == Read("$1" + q, Double, Appended(r, ""), map[], args);
    assert Expanded("1" + q, map[], args) == Some((q, args[0]));
    assert Read("$1" + q, Double, Appended(r, ""), map[], args)
        == Read(q, Double, Appended(Appended(r, ""), args[0]), map[], args);
    assert "" + "" + args[0] == args[0];
  }

  /** `"${@:2}"` as the last word. */
  lemma ReadRest(r: Reading, args: seq<string>)
    requires args != [] && r.word.None? && r.commands == [] && r.words != []
    ensures Read(ALL_FROM_TWO, Plain, r, map[], args) == Some([r.words + args[1..]])
  {
    var r1 := r.(words := r.words + args[1..]);
    assert ALL_FROM_TWO[|ALL_FROM_TWO|..] == "" && ALL_FROM_TWO[0] == '"';
    assert Read(ALL_FROM_TWO, Plain, r, map[], args) == Read("", Plain, r1, map[], args);
    assert CommandEnded(r1).commands == [r1.words];
  }

  // ---- the theorem

  lemma RunShell(argv0: string, program: string, arguments: seq<string>)
    ensures Bash(SHELL + [argv0, program] + arguments) == Some((program, [argv0] + arguments))
  {
    hide Read;
    var words := SHELL + [argv0, program] + arguments;
    ReadInnerScript(argv0, program, arguments);
    assert words[6..] == [argv0, program] + arguments;
    var exec := ["exec", "-a", argv0, "--", program] + arguments;
    assert exec[5..] == arguments;
  }

  lemma RunEnv(names: seq<string>, outer: Env, argv0: string, program: string, arguments: seq<string>,
      environment: Dict)
    requires (forall n :: n in names ==> Variable(n)) && forall v :: v in environment ==> Variable(v.0)
    ensures EnvOperands(BridgedWords(names, outer)
            + (Assignments(environment) + SHELL + [argv0, program] + arguments), map[])
         == Some((BridgeEnv(names, outer) + EnvOf(environment), SHELL + [argv0, program] + arguments))
  {
    hide EnvOperands, BridgeEnv, BridgedWords, Assignments, EnvOf;
    var command := SHELL + [argv0, program] + arguments;
    var rest := Assignments(environment) + command;
    assert Assignments(environment) + SHELL + [argv0, program] + arguments == rest;
    BridgeIsAssignments(names, outer);
    AssignmentsApply(BridgeDict(names, outer), rest, map[]);
    assert map[] + BridgeEnv(names, outer) == BridgeEnv(names, outer);
    AssignmentsApply(environment, command, BridgeEnv(names, outer));
    CommandStarts(command, BridgeEnv(names, outer) + EnvOf(environment));
  }

  lemma CommandStarts(command: seq<string>, env: Env)
    requires command != [] && '=' !in command[0]
    ensures EnvOperands(command, env) == Some((env, command))
  {
  }

  /** Reading the printed script runs the intended command: same program (an "=" in its
      path included), same argv[0] and arguments, same working directory, and the bridged
      variables overridden by the given environment. */
  lemma RoundTrip(
    program: string, argv0: string, arguments: seq<string>, environment: Dict, cwd: string, bridge: bool, outer: Env)
    requires WithoutNul(program, argv0, arguments, environment, cwd) && WithVariables(environment)
    ensures IsIntended(
              Run(CommandScript(program, argv0, arguments, environment, cwd, bridge), outer),
              program, argv0, arguments, environment, cwd, bridge, outer)
  {
    hide Run, Read, EnvOptions, EnvOperands, BridgedWords, BridgeEnv, Assignments, CommandScript, Bash, IntendedEnv;
    var names := if bridge then BRIDGE else [];
    RunIsExecEnv(program, argv0, arguments, environment, cwd, bridge, outer);
    BridgeVariables();
    RunEnv(names, outer, argv0, program, arguments, environment);
    RunShell(argv0, program, arguments);
    BridgeIsIntended(environment, bridge, outer);
  }

  lemma BridgeIsIntended(environment: Dict, bridge: bool, outer: Env)
    ensures IntendedEnv(BridgeEnv(if bridge then BRIDGE else [], outer)
            + EnvOf(environment), environment, bridge, outer)
  {
    hide EnvOf, ValueOrEmpty;
    assert forall name :: OfSession(name) <==> name in BRIDGE;
  }

  lemma RunIsExecEnv(
    program: string, argv0: string, arguments: seq<string>, environment: Dict, cwd: string, bridge: bool, outer: Env)
    requires WithoutNul(program, argv0, arguments, environment, cwd)
    ensures var words := Assignments(environment) + SHELL + [argv0, program] + arguments;
            var operands := BridgedWords(if bridge then BRIDGE else [], outer) + words;
            var exec := ["exec"] + COMMAND + operands;
            Run(CommandScript(program, argv0, arguments, environment, cwd, bridge), outer) == ExecEnv(cwd, exec, outer)
            && |exec| > 1 && exec[0] == "exec" && exec[1] == "/usr/bin/env"
            && EnvOptions(exec[2..], outer) == Some((map[], operands))
  {
    hide Read, BridgedWords, Assignments, CommandScript, ExecEnv;
    var names := if bridge then BRIDGE else [];
    var words := Assignments(environment) + SHELL + [argv0, program] + arguments;
    ReadScript(program, argv0, arguments, environment, cwd, bridge, outer);
    assert ["exec"] + COMMAND + BridgedWords(names, outer) + words ==
           ["exec"] + COMMAND + (BridgedWords(names, outer) + words);
    Cleared(BridgedWords(names, outer) + words, outer);
  }

  /** The options that are printed leave nothing of the environment. */
  lemma Cleared(operands: seq<string>, outer: Env)
    ensures var exec := ["exec"] + COMMAND + operands;
            exec[1] == "/usr/bin/env" && EnvOptions(exec[2..], outer) == Some((map[], operands))
  {
    var words := (["exec"] + COMMAND + operands)[2..];
    assert words == ["-i", "--"] + operands;
    assert words[1..] == ["--"] + operands && words[1..][1..] == operands;
  }

  lemma BridgeVariables()
    ensures forall n :: n in BRIDGE ==> Variable(n)
  {
  }

  // ---- and only for these inputs

  lemma {:induction false} NamesHaveNoNul(s: string)
    ensures NUL !in NameAt(s)
  {
    if s != "" {
      NamesHaveNoNul(s[1..]);
    }
  }

  lemma ExpansionKeepsNul(s: string, env: Env, args: seq<string>)
    requires NUL in s && Expanded(s, env, args).Some?
    ensures NUL in Expanded(s, env, args).value.0
  {
    var rest := Expanded(s, env, args).value.0;
    if s[0] == '{' {
      NamesHaveNoNul(s[1..]);
      var name := NameAt(s[1..]);
      assert s == ['{'] + name + ['-', '}'] + rest;
    } else {
      assert s == [s[0]] + rest;
    }
  }

  /** No script that holds a NUL is read. */
  lemma {:induction false} NulIsRefused(s: string, m: Mode, r: Reading, env: Env, args: seq<string>)
    requires NUL in s
    ensures Read(s, m, r, env, args).None?
    decreases |s|
  {
    hide Expanded, WordEnded, CommandEnded, Appended;
    if s[0] != NUL {
      assert s == [s[0]] + s[1..];
      if m.Plain? && s[0] != '\'' && ALL_FROM_TWO <= s && r.word.None? && EndsWord(s[|ALL_FROM_TWO|..]) {
        assert s == ALL_FROM_TWO + s[|ALL_FROM_TWO|..];
        NulIsRefused(s[|ALL_FROM_TWO|..], Plain, r.(words := r.words + args[if |args| == 0 then 0 else 1..]), env,
          args);
      } else if m.Double? && s[0] == '$' {
        var e := Expanded(s[1..], env, args);
        if e.Some? {
          ExpansionKeepsNul(s[1..], env, args);
          NulIsRefused(e.value.0, Double, Appended(r, e.value.1), env, args);
        }
      } else {
        forall m', r' {
          NulIsRefused(s[1..], m', r', env, args);
        }
      }
    }
  }

  lemma {:induction false} EscapedKeepsNul(s: string)
    requires NUL in s
    ensures NUL in Escaped(s)
  {
    if s[0] != NUL {
      assert s == [s[0]] + s[1..];
      EscapedKeepsNul(s[1..]);
    }
  }

  lemma QuoteKeepsNul(s: string)
    requires NUL in s
    ensures NUL in Quote(s)
  {
    assert !AllSafe(s) by { assert !Safe(NUL); }
    EscapedKeepsNul(s);
  }

  lemma {:induction false} JoinKeepsNul(words: seq<string>)
    requires !AllNulFree(words)
    ensures NUL in QuotedJoin(words)
  {
    if NulFree(words[0]) {
      assert forall w :: w in words ==> w == words[0] || w in words[1..];
      JoinKeepsNul(words[1..]);
    } else {
      QuoteKeepsNul(words[0]);
    }
  }

  lemma {:induction false} AssignmentsKeepNul(environment: Dict)
    requires exists v :: v in environment && (NUL in v.0 || NUL in v.1)
    ensures !AllNulFree(Assignments(environment))
  {
    var word := environment[0].0 + "=" + environment[0].1;
    assert word in Assignments(environment);
    if NulFree(word) {
      assert forall v :: v in environment ==> v == environment[0] || v in environment[1..];
      AssignmentsKeepNul(environment[1..]);
      var w :| w in Assignments(environment[1..]) && !NulFree(w);
      assert w in Assignments(environment);
    }
  }

  lemma ScriptKeepsNul(
    program: string, argv0: string, arguments: seq<string>, environment: Dict, cwd: string, bridge: bool)
    requires !WithoutNul(program, argv0, arguments, environment, cwd)
    ensures NUL in CommandScript(program, argv0, arguments, environment, cwd, bridge)
  {
    hide QuotedJoin, Quote, BridgedJoin, Assignments;
    var words := Assignments(environment) + SHELL + [argv0, program] + arguments;
    if NUL in cwd {
      QuoteKeepsNul(cwd);
    } else {
      if v :| v in environment && (NUL in v.0 || NUL in v.1) {
        AssignmentsKeepNul(environment);
        var w :| w in Assignments(environment) && !NulFree(w);
        assert w in words;
      } else if NUL in argv0 || NUL in program {
        assert argv0 in words && program in words;
      } else {
        var w :| w in arguments && !NulFree(w);
        assert w in words;
      }
      JoinKeepsNul(words);
    }
  }

  lemma {:induction false} OnlyVariables(operands: seq<string>, env: Env)
    requires forall k :: k in env ==> Variable(k)
    ensures EnvOperands(operands, env).Some? ==> forall k :: k in EnvOperands(operands, env).value.0 ==> Variable(k)
    decreases |operands|
  {
    if operands != [] && '=' in operands[0] && Before(operands[0], '=') != "" {
      var name := Before(operands[0], '=');
      OnlyVariables(operands[1..], env[name := operands[0][|name| + 1..]]);
    }
  }

  lemma {:induction false} EnvOfKeys(environment: Dict, v: (string, string))
    requires v in environment
    ensures v.0 in EnvOf(environment)
  {
    if v != environment[0] {
      EnvOfKeys(environment[1..], v);
    }
  }

  /** The transport is exact: the intended command runs if and only if no input holds a
      NUL and every key can name a variable. */
  lemma TransportIsExact(
    program: string, argv0: string, arguments: seq<string>, environment: Dict, cwd: string, bridge: bool, outer: Env)
    ensures IsIntended(
              Run(CommandScript(program, argv0, arguments, environment, cwd, bridge), outer),
              program, argv0, arguments, environment, cwd, bridge, outer)
       <==> WithoutNul(program, argv0, arguments, environment, cwd) && WithVariables(environment)
  {
    hide Read, CommandScript, EnvOptions, EnvOperands, BridgedWords, Assignments, Bash, EnvOf, BridgeEnv;
    if !WithoutNul(program, argv0, arguments, environment, cwd) {
      ScriptKeepsNul(program, argv0, arguments, environment, cwd, bridge);
      NulIsRefused(CommandScript(program, argv0, arguments, environment, cwd, bridge), Plain, Reading([], [], None),
        outer, []);
    } else if !WithVariables(environment) {
      var v :| v in environment && !Variable(v.0);
      EnvOfKeys(environment, v);
      RunIsExecEnv(program, argv0, arguments, environment, cwd, bridge, outer);
      var words := Assignments(environment) + SHELL + [argv0, program] + arguments;
      OnlyVariables(BridgedWords(if bridge then BRIDGE else [], outer) + words, map[]);
    } else {
      RoundTrip(program, argv0, arguments, environment, cwd, bridge, outer);
    }
  }

  // ---- the directory that `cd -- OPERAND` looks for

  predicate DotLed(operand: string) {
    operand == "." || operand == ".." || "./" <= operand || "../" <= operand
  }

  function Joined(prefixes: seq<string>, operand: string): seq<string> {
    if prefixes == [] then []
    else [(if prefixes[0] == "" then "." else prefixes[0]) + "/" + operand] + Joined(prefixes[1..], operand)
  }

  /** The pathnames tried in turn, by the cd utility of POSIX.1-2017 Shell and Utilities. */
  function CdCandidates(operand: string, cdpath: seq<string>, oldpwd: string): seq<string> {
    if operand == "-" then [oldpwd]
    else if operand != "" && operand[0] == '/' then [operand]
    else if DotLed(operand) then [operand]
    else Joined(cdpath, operand) + [operand]
  }

  /** The working directory is the operand itself, whatever the outer shell's CDPATH and
      OLDPWD hold, exactly when the operand is absolute or begins with a dot component.
      The caller passes os.getcwd(), which is absolute. */
  lemma CdIsExact(operand: string)
    ensures (forall cdpath, oldpwd :: CdCandidates(operand, cdpath, oldpwd) == [operand])
       <==> (operand != "" && operand[0] == '/') || DotLed(operand)
  {
    if operand == "-" {
      assert CdCandidates(operand, [], "/") != [operand];
    } else if !(operand != "" && operand[0] == '/') && !DotLed(operand) {
      assert |CdCandidates(operand, [""], "")| == |Joined([""], operand)| + 1;
    }
  }
}
