/** Pathnames as the image tools read and print them: pathlib's parts on one side,
    os.path.relpath on the other. */
module Paths {
  type Path = seq<string>

  const UP := ".."

  function Split(s: string): (r: seq<string>)
    ensures r != []
  {
    if s == "" then [""]
    else
      var rest := Split(s[1..]);
      if s[0] == '/' then [""] + rest else [[s[0]] + rest[0]] + rest[1..]
  }

  /** A piece of a pathname that pathlib keeps. */
  predicate Component(c: string) {
    c != "" && c != "." && '/' !in c
  }

  /** A component that can be an entry of a directory. */
  predicate Name(c: string) {
    Component(c) && c != UP
  }

  function Kept(pieces: seq<string>): seq<string> {
    if pieces == [] then []
    else if pieces[0] == "" || pieces[0] == "." then Kept(pieces[1..])
    else [pieces[0]] + Kept(pieces[1..])
  }

  function Components(s: string): seq<string> {
    Kept(Split(s))
  }

  predicate IsAbsolute(s: string) {
    s != "" && s[0] == '/'
  }

  /** PurePosixPath(s).parts, for an `s` that does not begin with exactly two slashes. */
  function Parts(s: string): seq<string> {
    if IsAbsolute(s) then ["/"] + Components(s) else Components(s)
  }

  function Join(cs: seq<string>): string {
    if cs == [] then ""
    else if |cs| == 1 then cs[0]
    else cs[0] + "/" + Join(cs[1..])
  }

  /** How os.path.relpath prints a list of components. */
  function RelativeString(cs: seq<string>): string {
    if cs == [] then "." else Join(cs)
  }

  /** os.path.normpath on the components of an absolute path, continued from `stack`. */
  function Normalized(stack: Path, cs: seq<string>): Path
    decreases |cs|
  {
    if cs == [] then stack
    else if cs[0] == UP then Normalized(if stack == [] then [] else stack[..|stack| - 1], cs[1..])
    else Normalized(stack + [cs[0]], cs[1..])
  }

  function CommonPrefix(a: Path, b: Path): (n: nat)
    ensures n <= |a| && n <= |b| && a[..n] == b[..n]
    ensures n < |a| && n < |b| ==> a[n] != b[n]
  {
    if a == [] || b == [] || a[0] != b[0] then 0
    else
      var n := CommonPrefix(a[1..], b[1..]);
      assert a[..n + 1] == [a[0]] + a[1..][..n] && b[..n + 1] == [b[0]] + b[1..][..n];
      n + 1
  }

  function Ups(n: nat): seq<string> {
    seq(n, _ => UP)
  }

  /** The way from directory `start` to `goal`: up to their common ancestor, then down. */
  function Between(goal: Path, start: Path): seq<string> {
    var n := CommonPrefix(goal, start);
    Ups(|start| - n) + goal[n..]
  }

  /** os.path.relpath on the components of two absolute paths. */
  function RelPath(path: seq<string>, start: seq<string>): seq<string> {
    Between(Normalized([], path), Normalized([], start))
  }

  lemma {:induction false} SplitPrepends(c: string, s: string)
    requires '/' !in c
    ensures Split(c + s) == [c + Split(s)[0]] + Split(s)[1..]
  {
    if c != "" {
      assert (c + s)[1..] == c[1..] + s;
      SplitPrepends(c[1..], s);
      assert [c[0]] + (c[1..] + Split(s)[0]) == c + Split(s)[0];
    } else {
      assert c + s == s && c + Split(s)[0] == Split(s)[0];
    }
  }

  lemma SplitCons(c: string, s: string)
    requires '/' !in c
    ensures Split(c) == [c] && Split(c + ("/" + s)) == [c] + Split(s)
  {
    SplitPrepends(c, "");
    assert c + "" == c;
    SplitPrepends(c, "/" + s);
    assert ("/" + s)[1..] == s;
    assert Split("/" + s) == [""] + Split(s);
  }

  lemma {:induction false} SplitUndoesJoin(cs: seq<string>)
    requires cs != [] && forall c :: c in cs ==> '/' !in c
    ensures Split(Join(cs)) == cs
  {
    if |cs| == 1 {
      SplitCons(cs[0], "");
    } else {
      SplitUndoesJoin(cs[1..]);
      SplitCons(cs[0], Join(cs[1..]));
      assert cs[0] + "/" + Join(cs[1..]) == cs[0] + ("/" + Join(cs[1..]));
    }
  }

  lemma {:induction false} KeptIsIdentity(cs: seq<string>)
    requires forall c :: c in cs ==> Component(c)
    ensures Kept(cs) == cs
  {
    if cs != [] {
      assert Component(cs[0]) && forall c :: c in cs[1..] ==> c in cs;
      KeptIsIdentity(cs[1..]);
    }
  }

  /** Printing components and reading them back is the identity, and the text is relative. */
  lemma ReadingUndoesPrinting(cs: seq<string>)
    requires forall c :: c in cs ==> Component(c)
    ensures !IsAbsolute(RelativeString(cs)) && Parts(RelativeString(cs)) == cs
  {
    if cs == [] {
      assert "."[1..] == "" && ['.'] + "" == ".";
      assert Split(".") == ["."] && ["."][1..] == [];
    } else {
      SplitUndoesJoin(cs);
      KeptIsIdentity(cs);
      assert Component(cs[0]) && cs[0][0] in cs[0];
      assert Join(cs)[0] == cs[0][0];
    }
  }

  lemma {:induction false} SplitHasNoSlash(s: string)
    ensures forall c :: c in Split(s) ==> '/' !in c
  {
    if s != "" {
      SplitHasNoSlash(s[1..]);
      var rest := Split(s[1..]);
      assert rest[0] in rest;
      assert forall c :: c in rest[1..] ==> c in rest;
    }
  }

  lemma {:induction false} KeptAreComponents(pieces: seq<string>)
    requires forall c :: c in pieces ==> '/' !in c
    ensures forall c :: c in Kept(pieces) ==> Component(c)
  {
    if pieces != [] {
      assert forall c :: c in pieces[1..] ==> c in pieces;
      assert pieces[0] in pieces;
      KeptAreComponents(pieces[1..]);
    }
  }

  lemma ComponentsAreComponents(s: string)
    ensures forall c :: c in Components(s) ==> Component(c)
  {
    SplitHasNoSlash(s);
    KeptAreComponents(Split(s));
  }

  lemma {:induction false} NormalizedFromPrefix(stack: Path, names: seq<string>, cs: seq<string>)
    requires forall c :: c in names ==> c != UP
    ensures Normalized(stack, names + cs) == Normalized(stack + names, cs)
    decreases |names|
  {
    if names == [] {
      assert names + cs == cs && stack + names == stack;
    } else {
      assert (names + cs)[1..] == names[1..] + cs;
      assert stack + names == stack + [names[0]] + names[1..];
      assert names[0] in names && (names + cs)[0] == names[0];
      assert forall c :: c in names[1..] ==> c in names;
      NormalizedFromPrefix(stack + [names[0]], names[1..], cs);
    }
  }

  lemma {:induction false} CommonPrefixUnder(root: Path, a: Path, b: Path)
    ensures CommonPrefix(root + a, root + b) == |root| + CommonPrefix(a, b)
  {
    if root == [] {
      assert root + a == a && root + b == b;
    } else {
      assert (root + a)[1..] == root[1..] + a && (root + b)[1..] == root[1..] + b;
      CommonPrefixUnder(root[1..], a, b);
    }
  }

  lemma BetweenUnderRoot(root: Path, goal: Path, start: Path)
    ensures Between(root + goal, root + start) == Between(goal, start)
  {
    CommonPrefixUnder(root, goal, start);
    var n := CommonPrefix(goal, start);
    assert (root + goal)[|root| + n..] == goal[n..];
  }
}
