/** The part of the POSIX shell language that the transported commands are written in:
    a reader from characters to commands, each a list of expanded words. */
module Shell {
  import opened Options

  type Env = map<string, string>

  datatype Mode = Plain | Single | Double

  /** Commands already ended, words of the current command, and the word being read. */
  datatype Reading = Reading(commands: seq<seq<string>>, words: seq<string>, word: Option<string>)

  const NUL: char := '\0'

  predicate Alphanumeric(c: char) {
    'a' <= c <= 'z' || 'A' <= c <= 'Z' || '0' <= c <= '9' || c == '_'
  }

  /** Characters that mean themselves outside quotes wherever they stand in a word. */
  predicate Safe(c: char) {
    Alphanumeric(c) || c == '@' || c == '%' || c == '+' || c == '=' || c == ':' || c == ',' || c == '.' || c == '/'
      || c == '-'
  }

  predicate Identifier(s: string) {
    s != "" && forall c :: c in s ==> Alphanumeric(c)
  }

  function Text(w: Option<string>): string {
    if w.Some? then w.value else ""
  }

  function Appended(r: Reading, s: string): Reading {
    r.(word := Some(Text(r.word) + s))
  }

  function WordEnded(r: Reading): Reading {
    if r.word.None? then r else Reading(r.commands, r.words + [r.word.value], None)
  }

  function CommandEnded(r: Reading): Reading {
    var e := WordEnded(r);
    if e.words == [] then e else Reading(e.commands + [e.words], [], None)
  }

  /** The longest run of name characters at the start of `s`. */
  function NameAt(s: string): (n: string)
    ensures n <= s
  {
    if s != "" && Alphanumeric(s[0]) then [s[0]] + NameAt(s[1..]) else ""
  }

  /** What a "$" inside double quotes introduces: the rest of the input and the value.
      Two forms are understood, `${NAME-}` (section 2.6.2 of the POSIX.1-2017 Shell
      Command Language) and a positional parameter of one digit. */
  function Expanded(s: string, env: Env, args: seq<string>): (e: Option<(string, string)>)
    ensures e.Some? ==> |e.value.0| < |s| && e.value.0 == s[|s| - |e.value.0|..]
  {
    if |s| > 1 && s[0] == '{' then
      var name := NameAt(s[1..]);
      var rest := s[1 + |name|..];
      if name != "" && |rest| >= 2 && rest[0] == '-' && rest[1] == '}'
      then Some((rest[2..], if name in env then env[name] else ""))
      else None
    else if s != "" && '1' <= s[0] <= '9' then
      var i := s[0] as int - '1' as int;
      if i < |args| then Some((s[1..], args[i])) else None
    else None
  }

  const ALL_FROM_TWO: string := "\"${@:2}\""

  /** Characters that may mean something else outside quotes (section 2.2 of the POSIX.1-2017
      Shell Command Language, and history and brace expansion). */
  predicate Special(c: char) {
    c in "|&;<>()$`\\\"' \t\n*?[]#~{}!^"
  }

  predicate EndsWord(s: string) {
    s == "" || s[0] == ' ' || s[0] == '\n'
  }

  /** Read `s` to the end. None stands for input outside the understood subset, an
      unterminated quotation, or a NUL, which no shell can hold in a word. */
  function Read(s: string, m: Mode, r: Reading, env: Env, args: seq<string>): Option<seq<seq<string>>>
    decreases |s|
  {
    if s == "" then
      if m.Plain? then Some(CommandEnded(r).commands) else None
    else if s[0] == NUL then None
    else
      match m
      case Plain =>
        if s[0] == '\'' then Read(s[1..], Single, Appended(r, ""), env, args)
        else if ALL_FROM_TWO <= s && r.word.None? && EndsWord(s[|ALL_FROM_TWO|..]) then
          Read(s[|ALL_FROM_TWO|..], Plain, r.(words := r.words + args[if |args| == 0 then 0 else 1..]), env, args)
        else if s[0] == '"' then Read(s[1..], Double, Appended(r, ""), env, args)
        else if s[0] == ' ' then Read(s[1..], Plain, WordEnded(r), env, args)
        else if s[0] == '\n' then Read(s[1..], Plain, CommandEnded(r), env, args)
        else if Special(s[0]) then None
        else Read(s[1..], Plain, Appended(r, [s[0]]), env, args)
      case Single =>
        if s[0] == '\'' then Read(s[1..], Plain, r, env, args)
        else Read(s[1..], Single, Appended(r, [s[0]]), env, args)
      case Double =>
        if s[0] == '"' then Read(s[1..], Plain, r, env, args)
        else if s[0] == '$' then
          var e := Expanded(s[1..], env, args);
          if e.None? then None else Read(e.value.0, Double, Appended(r, e.value.1), env, args)
        else if s[0] == '\\' || s[0] == '`' then None
        else Read(s[1..], Double, Appended(r, [s[0]]), env, args)
  }

  // ---- quoting

  predicate NulFree(s: string) {
    NUL !in s
  }

  predicate AllSafe(s: string) {
    forall c :: c in s ==> Safe(c)
  }

  /** str.replace("'", "'\"'\"'") */
  function Escaped(s: string): string {
    if s == "" then ""
    else (if s[0] == '\'' then "'\"'\"'" else [s[0]]) + Escaped(s[1..])
  }

  /** shlex.quote */
  function Quote(s: string): string {
    if s == "" then "''" else if AllSafe(s) then s else "'" + Escaped(s) + "'"
  }

  /** shlex.join */
  function QuotedJoin(words: seq<string>): string {
    if words == [] then ""
    else if |words| == 1 then Quote(words[0])
    else Quote(words[0]) + " " + QuotedJoin(words[1..])
  }

  lemma SafeIsPlain(c: char)
    requires Safe(c)
    ensures !Special(c) && c != '\'' && c != '"' && c != ' ' && c != '\n' && c != NUL
  {
  }

  lemma {:induction false} ReadSafe(s: string, rest: string, r: Reading, env: Env, args: seq<string>)
    requires AllSafe(s)
    ensures s != "" ==> Read(s + rest, Plain, r, env, args) == Read(rest, Plain, Appended(r, s), env, args)
    decreases |s|
  {
    hide Expanded, Special, Safe;
    if s != "" {
      assert s[0] in s && (s + rest)[1..] == s[1..] + rest;
      SafeIsPlain(s[0]);
      assert forall c :: c in s[1..] ==> c in s;
      var next := Appended(r, [s[0]]);
      assert Read(s + rest, Plain, r, env, args) == Read(s[1..] + rest, Plain, next, env, args);
      ReadSafe(s[1..], rest, next, env, args);
      if s[1..] == "" {
        assert s[1..] + rest == rest && s == [s[0]];
      } else {
        assert Text(r.word) + [s[0]] + s[1..] == Text(r.word) + s;
      }
    }
  }

  /** `'"'"'` closes the quotation, supplies one apostrophe, and opens it again. */
  lemma ReadApostrophe(rest: string, r: Reading, env: Env, args: seq<string>)
    requires r.word.Some?
    ensures Read("'\"'\"'" + rest, Single, r, env, args) == Read(rest, Single, Appended(r, "'"), env, args)
  {
    var s := "'\"'\"'" + rest;
    assert s[1..] == "\"'\"'" + rest && s[1..][1..] == "'\"'" + rest;
    assert s[1..][1..][1..] == "\"'" + rest && s[1..][1..][1..][1..] == "'" + rest;
    assert s[1..][1..][1..][1..][1..] == rest;
    var r1 := Appended(r, "");
    assert r1 == r by { assert Text(r.word) + "" == Text(r.word); }
    var r2 := Appended(r1, "'");
    assert Appended(r2, "") == r2 by { assert Text(r2.word) + "" == Text(r2.word); }
    assert Read(s, Single, r, env, args) == Read(s[1..], Plain, r, env, args);
    assert Read(s[1..], Plain, r, env, args) == Read(s[1..][1..], Double, r1, env, args);
    assert Read(s[1..][1..], Double, r1, env, args) == Read(s[1..][1..][1..], Double, r2, env, args);
    assert Read(s[1..][1..][1..], Double, r2, env, args) == Read(s[1..][1..][1..][1..], Plain, r2, env, args);
  }

  lemma {:induction false} ReadEscaped(s: string, rest: string, r: Reading, env: Env, args: seq<string>)
    requires NulFree(s) && r.word.Some?
    ensures Read(Escaped(s) + ("'" + rest), Single, r, env, args) == Read(rest, Plain, Appended(r, s), env, args)
    decreases |s|
  {
    hide Expanded, Special, Safe;
    if s == "" {
      assert Escaped(s) + ("'" + rest) == "'" + rest && ("'" + rest)[1..] == rest;
      assert Text(r.word) + "" == Text(r.word);
    } else {
      var tail := Escaped(s[1..]) + ("'" + rest);
      var head := [s[0]];
      assert s[0] in s && s == head + s[1..];
      assert Text(r.word) + head + s[1..] == Text(r.word) + s;
      ReadEscaped(s[1..], rest, Appended(r, head), env, args);
      if s[0] == '\'' {
        assert head == "'";
        assert Escaped(s) + ("'" + rest) == "'\"'\"'" + tail;
        ReadApostrophe(tail, r, env, args);
      } else {
        assert Escaped(s) + ("'" + rest) == head + tail && (head + tail)[1..] == tail;
      }
    }
  }

  /** An apostrophe outside quotes opens a quotation, even at the start of a word. */
  lemma ReadOpening(rest: string, r: Reading, env: Env, args: seq<string>)
    ensures Read("'" + rest, Plain, r, env, args) == Read(rest, Single, Appended(r, ""), env, args)
  {
    assert ("'" + rest)[1..] == rest;
  }

  lemma SafeForm(s: string)
    requires s != "" && AllSafe(s)
    ensures Quote(s) == s
  {
  }

  lemma QuotedForm(s: string, rest: string)
    requires s == "" || !AllSafe(s)
    ensures Quote(s) + rest == "'" + (Escaped(s) + ("'" + rest))
  {
    hide AllSafe;
    if s == "" {
      assert Quote(s) + rest == "'" + ("" + ("'" + rest));
    } else {
      assert "'" + Escaped(s) + "'" + rest == "'" + (Escaped(s) + ("'" + rest));
    }
  }

  /** A quoted word reads back as itself, whatever it holds. */
  lemma ReadQuote(s: string, rest: string, r: Reading, env: Env, args: seq<string>)
    requires NulFree(s) && r.word.None?
    ensures Read(Quote(s) + rest, Plain, r, env, args) == Read(rest, Plain, r.(word := Some(s)), env, args)
  {
    hide Read, Escaped, Quote, Appended, AllSafe;
    AppendedOnce(r, s);
    if s != "" && AllSafe(s) {
      SafeForm(s);
      ReadSafe(s, rest, r, env, args);
    } else {
      ReadEscaped(s, rest, Appended(r, ""), env, args);
      ReadOpening(Escaped(s) + ("'" + rest), r, env, args);
      QuotedForm(s, rest);
    }
  }

  lemma AppendedOnce(r: Reading, s: string)
    requires r.word.None?
    ensures Appended(r, s) == r.(word := Some(s)) && Appended(r, "").word.Some?
    ensures Appended(Appended(r, ""), s) == r.(word := Some(s))
  {
    assert "" + s == s && "" + "" == "";
    assert Appended(r, "").word == Some("");
  }

  lemma ReadSpace(rest: string, r: Reading, env: Env, args: seq<string>)
    ensures Read(" " + rest, Plain, r, env, args) == Read(rest, Plain, WordEnded(r), env, args)
  {
    assert (" " + rest)[1..] == rest;
  }

  /** A quoted command line reads back as the list of its words. */
  lemma {:induction false} ReadQuotedJoin(words: seq<string>, rest: string, r: Reading, env: Env, args: seq<string>)
    requires words != [] && (forall w :: w in words ==> NulFree(w)) && r.word.None?
    ensures Read(QuotedJoin(words) + rest, Plain, r, env, args)
         == Read(rest, Plain, Reading(r.commands, r.words + words[..|words| - 1], Some(words[|words| - 1])), env, args)
    decreases |words|
  {
    hide Read, Quote;
    assert words[0] in words;
    if |words| == 1 {
      ReadQuote(words[0], rest, r, env, args);
      assert r.words + words[..0] == r.words;
    } else {
      var tail := QuotedJoin(words[1..]) + rest;
      assert QuotedJoin(words) + rest == Quote(words[0]) + (" " + tail);
      ReadQuote(words[0], " " + tail, r, env, args);
      ReadSpace(tail, r.(word := Some(words[0])), env, args);
      var next := Reading(r.commands, r.words + [words[0]], None);
      assert forall w :: w in words[1..] ==> w in words;
      ReadQuotedJoin(words[1..], rest, next, env, args);
      assert r.words + [words[0]] + words[1..][..|words| - 2] == r.words + words[..|words| - 1];
    }
  }

  // ---- parameters

  lemma {:induction false} NameIsTaken(name: string, rest: string)
    requires (forall c :: c in name ==> Alphanumeric(c)) && (rest == "" || !Alphanumeric(rest[0]))
    ensures NameAt(name + rest) == name
  {
    if name == "" {
      assert name + rest == rest;
    } else {
      assert name[0] in name && (name + rest)[1..] == name[1..] + rest;
      assert forall c :: c in name[1..] ==> c in name;
      NameIsTaken(name[1..], rest);
    }
  }

  /** `${NAME-}`: the value of the variable, or nothing when it is unset. */
  function ValueOrEmpty(env: Env, name: string): string {
    if name in env then env[name] else ""
  }

  lemma ExpandName(name: string, rest: string, env: Env, args: seq<string>)
    requires Identifier(name)
    ensures Expanded("{" + name + "-}" + rest, env, args) == Some((rest, ValueOrEmpty(env, name)))
  {
    var s := "{" + name + "-}" + rest;
    NameIsTaken(name, "-}" + rest);
    assert s[1..] == name + ("-}" + rest);
    assert s[1 + |name|..] == "-}" + rest && ("-}" + rest)[2..] == rest;
  }

  /** Inside double quotes, name characters and "=" stand for themselves. */
  lemma {:induction false} ReadLiteral(s: string, rest: string, r: Reading, env: Env, args: seq<string>)
    requires AllSafe(s) && r.word.Some?
    ensures Read(s + rest, Double, r, env, args) == Read(rest, Double, Appended(r, s), env, args)
    decreases |s|
  {
    if s == "" {
      assert s + rest == rest && Text(r.word) + "" == Text(r.word);
    } else {
      assert s[0] in s && (s + rest)[1..] == s[1..] + rest;
      assert forall c :: c in s[1..] ==> c in s;
      ReadLiteral(s[1..], rest, Appended(r, [s[0]]), env, args);
      assert Text(r.word) + [s[0]] + s[1..] == Text(r.word) + s;
    }
  }

  /** `"NAME=${NAME-}"` reads as one word. */
  function Bridged(name: string): string {
    "\"" + name + "=${" + name + "-}\""
  }

  lemma ReadDoubleQuotes(rest: string, r: Reading, env: Env, args: seq<string>)
    ensures rest != "" && rest[0] != '$' ==>
              Read("\"" + rest, Plain, r, env, args) == Read(rest, Double, Appended(r, ""), env, args)
    ensures Read("\"" + rest, Double, r, env, args) == Read(rest, Plain, r, env, args)
  {
    hide Expanded;
    assert ("\"" + rest)[1..] == rest;
    if rest != "" && rest[0] != '$' {
      assert ALL_FROM_TWO[1] == '$' && ("\"" + rest)[1] == rest[0];
    }
  }

  lemma ReadDollar(s: string, rest: string, value: string, r: Reading, env: Env, args: seq<string>)
    requires Expanded(s, env, args) == Some((rest, value))
    ensures Read("$" + s, Double, r, env, args) == Read(rest, Double, Appended(r, value), env, args)
  {
    hide Expanded;
    assert ("$" + s)[1..] == s;
  }

  lemma ReadBridged(name: string, rest: string, r: Reading, env: Env, args: seq<string>)
    requires Identifier(name) && r.word.None?
    ensures Read(Bridged(name) + rest, Plain, r, env, args)
         == Read(rest, Plain, r.(word := Some(name + "=" + ValueOrEmpty(env, name))), env, args)
  {
    hide Read, Expanded, ValueOrEmpty;
    var value := ValueOrEmpty(env, name);
    var t3 := "\"" + rest;
    var t2 := "$" + ("{" + name + "-}" + t3);
    var t1 := (name + "=") + t2;
    assert Bridged(name) + rest == "\"" + t1;
    assert t1[0] == name[0] && name[0] in name;
    var r1 := Appended(r, "");
    ReadDoubleQuotes(t1, r, env, args);
    ReadLiteral(name + "=", t2, r1, env, args);
    ExpandName(name, t3, env, args);
    ReadDollar("{" + name + "-}" + t3, t3, value, Appended(r1, name + "="), env, args);
    ReadDoubleQuotes(rest, Appended(Appended(r1, name + "="), value), env, args);
    assert Text(r.word) + "" + (name + "=") + value == name + "=" + value;
  }

  function BridgedJoin(names: seq<string>): string {
    if names == [] then ""
    else if |names| == 1 then Bridged(names[0])
    else Bridged(names[0]) + " " + BridgedJoin(names[1..])
  }

  function BridgedWords(names: seq<string>, env: Env): seq<string> {
    if names == [] then [] else [names[0] + "=" + ValueOrEmpty(env, names[0])] + BridgedWords(names[1..], env)
  }

  lemma BridgedTail(names: seq<string>, rest: string)
    requires |names| > 1
    ensures BridgedJoin(names) + (" " + rest) == Bridged(names[0]) + (" " + (BridgedJoin(names[1..]) + (" " + rest)))
  {
    hide Bridged;
  }

  lemma ReadBridgedWord(name: string, rest: string, r: Reading, env: Env, args: seq<string>)
    requires Identifier(name) && r.word.None?
    ensures Read(Bridged(name) + (" " + rest), Plain, r, env, args)
         == Read(rest, Plain, Reading(r.commands, r.words + [name + "=" + ValueOrEmpty(env, name)], None), env, args)
  {
    hide Read, Bridged, ValueOrEmpty, Identifier;
    ReadBridged(name, " " + rest, r, env, args);
    ReadSpace(rest, r.(word := Some(name + "=" + ValueOrEmpty(env, name))), env, args);
  }

  lemma {:induction false} ReadBridgedJoin(names: seq<string>, rest: string, r: Reading, env: Env, args: seq<string>)
    requires (forall n :: n in names ==> Identifier(n)) && r.word.None?
    ensures Read(BridgedJoin(names) + (" " + rest), Plain, r, env, args)
         == Read(rest, Plain, Reading(r.commands, r.words + BridgedWords(names, env), None), env, args)
    decreases |names|
  {
    hide Read, Bridged, ValueOrEmpty, Identifier;
    if names == [] {
      ReadSpace(rest, r, env, args);
      assert BridgedJoin(names) + (" " + rest) == " " + rest;
      assert r.words + BridgedWords(names, env) == r.words;
    } else {
      assert names[0] in names && forall n :: n in names[1..] ==> n in names;
      var word := names[0] + "=" + ValueOrEmpty(env, names[0]);
      assert r.words + [word] + BridgedWords(names[1..], env) == r.words + BridgedWords(names, env);
      if |names| == 1 {
        assert names[1..] == [] && r.words + [word] + [] == r.words + [word];
        ReadBridgedWord(names[0], rest, r, env, args);
      } else {
        var tail := BridgedJoin(names[1..]) + (" " + rest);
        ReadBridgedWord(names[0], tail, r, env, args);
        BridgedTail(names, rest);
        ReadBridgedJoin(names[1..], rest, Reading(r.commands, r.words + [word], None), env, args);
      }
    }
  }
}
