/** The request envelope on the guest server's socket: a JSON text, a line holding EOM, and
    whatever the client sends later. */
module Envelope {
  const MARKER: string := "\nEOM\n"

  datatype Result = Request(body: string) | UnexpectedEof

  predicate OccursAt(s: string, i: nat) {
    i + |MARKER| <= |s| && s[i..i + |MARKER|] == MARKER
  }

  predicate Contains(s: string) {
    exists i :: 0 <= i < |s| && OccursAt(s, i)
  }

  lemma Letters(s: string)
    ensures forall i: nat :: OccursAt(s, i) ==>
              s[i] == '\n' && s[i + 1] == 'E' && s[i + 2] == 'O' && s[i + 3] == 'M' && s[i + 4] == '\n'
  {
    forall i: nat | OccursAt(s, i)
      ensures s[i] == '\n' && s[i + 1] == 'E' && s[i + 2] == 'O' && s[i + 3] == 'M' && s[i + 4] == '\n'
    {
      var m := s[i..i + 5];
      assert m[0] == s[i] && m[1] == s[i + 1] && m[2] == s[i + 2] && m[3] == s[i + 3] && m[4] == s[i + 4];
    }
  }

  /** What a client's bytes mean: everything before the first marker, or no request. */
  predicate Means(s: string, r: Result) {
    match r
    case Request(body) => body <= s && OccursAt(s, |body|) && forall i :: 0 <= i < |body| ==> !OccursAt(s, i)
    case UnexpectedEof => !Contains(s)
  }

  /** Where the line at `at` ends: behind its newline, or where the client stopped. */
  function LineEnd(s: string, at: nat): (end: nat)
    requires at <= |s|
    ensures at <= end <= |s| && (at < |s| ==> at < end)
    ensures forall i :: at <= i < end - 1 ==> s[i] != '\n'
    ensures end == |s| || (at < end && s[end - 1] == '\n')
    decreases |s| - at
  {
    if at == |s| then at
    else if s[at] == '\n' then at + 1
    else LineEnd(s, at + 1)
  }

  /** A marker that ends inside a line ends with it. */
  lemma EndsWithLine(s: string, from: nat, end: nat)
    requires from <= end <= |s| && forall i :: from <= i < end - 1 ==> s[i] != '\n'
    ensures forall i: nat :: from < i + |MARKER| <= end && OccursAt(s, i) ==> i + |MARKER| == end
  {
    Letters(s);
    forall i: nat | from < i + |MARKER| <= end && OccursAt(s, i)
      ensures i + |MARKER| == end
    {
      assert s[i + 4] == '\n';
    }
  }

  /** read_request: lines are collected until they end in the marker. `used` is how much of
      the connection that took; the acknowledgement is read from there. */
  method ReadRequest(s: string) returns (r: Result, used: nat)
    ensures Means(s, r)
    ensures used == if r.Request? then |r.body| + |MARKER| else |s|
  {
    var buf := "";
    used := 0;
    while true
      invariant used <= |s| && buf == s[..used]
      invariant forall i: nat :: i + |MARKER| <= used ==> !OccursAt(s, i)
      decreases |s| - used
    {
      var end := LineEnd(s, used);
      if end == used {
        return UnexpectedEof, used;
      }
      EndsWithLine(s, used, end);
      buf := buf + s[used..end];
      assert buf == s[..end];
      assert end >= |MARKER| ==> buf[end - |MARKER|..] == s[end - |MARKER|..end];
      if |buf| >= |MARKER| && buf[|buf| - |MARKER|..] == MARKER {
        return Request(buf[..|buf| - |MARKER|]), end;
      }
      used := end;
    }
  }

  lemma MeaningIsUnique(s: string, r: Result, q: Result)
    requires Means(s, r) && Means(s, q)
    ensures r == q
  {
    assert r.Request? ==> Contains(s) by {
      assert r.Request? ==> OccursAt(s, |r.body|);
    }
    assert q.Request? ==> Contains(s) by {
      assert q.Request? ==> OccursAt(s, |q.body|);
    }
  }

  /** An envelope is read back exactly when its text, with the newline that follows it,
      does not contain the marker: inside it, or as its last four characters. */
  lemma EnvelopeIsExact(body: string, later: string)
    ensures Means(body + MARKER + later, Request(body)) <==> !Contains(body + "\n")
  {
    var s := body + MARKER + later;
    var line := body + "\n";
    assert s[|body|..|body| + 5] == MARKER;
    assert body == s[..|body|];
    forall i | 0 <= i < |body|
      ensures OccursAt(s, i) <==> OccursAt(line, i)
    {
      if i + 5 <= |line| {
        assert s[i..i + 5] == line[i..i + 5];
      } else if OccursAt(s, i) {
        MarkerOverlapsOnce(s, i, |body|);
      }
    }
    assert !OccursAt(line, |body|);
  }

  /** Two occurrences of the marker share at most their outer newlines. */
  lemma MarkerOverlapsOnce(s: string, i: nat, j: nat)
    requires OccursAt(s, i) && OccursAt(s, j) && i < j
    ensures i + 4 <= j
  {
    Letters(s);
  }

  /** A text on one line, as json.dumps writes it, always comes through, whatever it says
      about EOM. */
  lemma OneLineIsExact(body: string, later: string, r: Result)
    requires '\n' !in body && Means(body + MARKER + later, r)
    ensures r == Request(body)
  {
    Letters(body + "\n");
    EnvelopeIsExact(body, later);
    MeaningIsUnique(body + MARKER + later, r, Request(body));
  }
}
