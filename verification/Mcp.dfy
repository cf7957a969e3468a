/** Names and schemas of MCP tools (src/core/src/mcp/mod.rs:22-40, 183-284). */
module Mcp {
  import opened Basics
  import opened Transcript

  // ---------------------------------------------------------------------------
  // Qualified names

  const PREFIX: string := "mcp"
  const DELIMITER: string := "__"

  function QualifyToolName(server: string, tool: string): string {
    PREFIX + DELIMITER + server + DELIMITER + tool
  }

  predicate DelimiterAt(s: string, i: nat) {
    i + 1 < |s| && s[i] == '_' && s[i + 1] == '_'
  }

  /** The place of the first delimiter, or the end. */
  function Find(s: string): (i: nat)
    ensures i <= |s| && (i < |s| ==> DelimiterAt(s, i))
  {
    if |s| < 2 then |s| else if DelimiterAt(s, 0) then 0 else 1 + Find(s[1..])
  }

  /** `str::split`: the parts between delimiters, found from the left without overlap. */
  function Split(s: string): (parts: seq<string>)
    ensures parts != []
    decreases |s|
  {
    var i := Find(s);
    if i == |s| then [s] else [s[..i]] + Split(s[i + 2..])
  }

  function Join(parts: seq<string>): string {
    if parts == [] then []
    else if |parts| == 1 then parts[0]
    else parts[0] + DELIMITER + Join(parts[1..])
  }

  function SplitQualifiedToolName(name: string): Option<(string, string)> {
    var parts := Split(name);
    if parts[0] != PREFIX || |parts| < 2 then None
    else
      var tool := Join(parts[2..]);
      if tool == [] then None else Some((parts[1], tool))
  }

  lemma {:induction false} JoinUndoesSplit(s: string)
    ensures Join(Split(s)) == s
    decreases |s|
  {
    hide Join, Split;
    var i := Find(s);
    SplitOnce(s);
    if i < |s| {
      var rest := s[i + 2..];
      JoinUndoesSplit(rest);
      JoinOnce(s[..i], Split(rest));
      CutAt(s, i);
    } else {
      JoinOne(s);
    }
  }

  lemma CutAt(s: string, i: nat)
    requires DelimiterAt(s, i)
    ensures s == s[..i] + DELIMITER + s[i + 2..]
  {
  }

  lemma {:induction false} SplitOnce(s: string)
    ensures var i := Find(s);
            Split(s) == if i == |s| then [s] else [s[..i]] + Split(s[i + 2..])
  {
  }

  lemma JoinOnce(part: string, parts: seq<string>)
    requires parts != []
    ensures Join([part] + parts) == part + DELIMITER + Join(parts)
  {
    assert ([part] + parts)[1..] == parts;
  }

  lemma JoinOne(part: string)
    ensures Join([part]) == part
  {
  }

  /** Any name that splits is put together again by qualifying. */
  lemma RequalifyingRestores(name: string)
    ensures var r := SplitQualifiedToolName(name);
            r.Some? ==> QualifyToolName(r.value.0, r.value.1) == name
  {
    var parts := Split(name);
    JoinUndoesSplit(name);
    if SplitQualifiedToolName(name).Some? {
      assert parts[1..][1..] == parts[2..];
      if |parts| > 2 {
        assert Join(parts[1..]) == parts[1] + DELIMITER + Join(parts[2..]);
        assert PREFIX + DELIMITER + (parts[1] + DELIMITER + Join(parts[2..]))
            == PREFIX + DELIMITER + parts[1] + DELIMITER + Join(parts[2..]);
      }
    }
  }

  /** The first delimiter is the smallest place that holds one. */
  lemma {:induction false} FindIsFirst(s: string, i: nat)
    requires i <= |s| && (i < |s| ==> DelimiterAt(s, i)) && forall k :: 0 <= k < i ==> !DelimiterAt(s, k)
    ensures Find(s) == i
    decreases |s|
  {
    if 2 <= |s| && i > 0 {
      assert forall k :: 0 <= k < i - 1 ==> DelimiterAt(s[1..], k) == DelimiterAt(s, k + 1);
      assert !DelimiterAt(s, 0);
      FindIsFirst(s[1..], i - 1);
    }
  }

  lemma {:induction false} NothingBeforeFind(s: string, k: nat)
    requires k < Find(s)
    ensures !DelimiterAt(s, k)
    decreases |s|
  {
    if 2 <= |s| && k > 0 {
      NothingBeforeFind(s[1..], k - 1);
      assert DelimiterAt(s[1..], k - 1) == DelimiterAt(s, k);
    }
  }

  ghost predicate HasDelimiter(s: string) {
    exists i: nat :: DelimiterAt(s, i)
  }

  /** A server name that the delimiter behind it cannot be confused with. */
  ghost predicate IsPlainServer(server: string) {
    !HasDelimiter(server) && (server == [] || server[|server| - 1] != '_')
  }

  /** The delimiter behind a server name is the first one exactly if the name is plain. */
  lemma FindBehindServer(server: string, tool: string)
    ensures Find(server + DELIMITER + tool) == |server| <==> IsPlainServer(server)
  {
    var s := server + DELIMITER + tool;
    var n := |server|;
    assert forall k: nat :: k + 1 < n ==> DelimiterAt(s, k) == DelimiterAt(server, k);
    assert DelimiterAt(s, n);
    if IsPlainServer(server) {
      forall k | 0 <= k < n ensures !DelimiterAt(s, k) {
        if k + 1 < n { assert !DelimiterAt(server, k); }
      }
      FindIsFirst(s, n);
    } else if Find(s) == n {
      if i: nat :| DelimiterAt(server, i) {
        NothingBeforeFind(s, i);
      } else {
        NothingBeforeFind(s, n - 1);
      }
      assert false;
    }
  }

  lemma SplitBehind(head: string, rest: string)
    requires Find(head + DELIMITER + rest) == |head|
    ensures Split(head + DELIMITER + rest) == [head] + Split(rest)
  {
    var s := head + DELIMITER + rest;
    assert s[..|head|] == head && s[|head| + 2..] == rest;
  }

  /** Splitting a qualified name gives back server and tool exactly if the tool has a name and the
      server name is plain. */
  lemma SplittingRestores(server: string, tool: string)
    ensures SplitQualifiedToolName(QualifyToolName(server, tool)) == Some((server, tool))
       <==> tool != [] && IsPlainServer(server)
  {
    var rest := server + DELIMITER + tool;
    assert QualifyToolName(server, tool) == PREFIX + DELIMITER + rest;
    PrefixIsPlain();
    FindBehindServer(PREFIX, rest);
    SplitBehind(PREFIX, rest);
    FindBehindServer(server, tool);
    var parts := [PREFIX] + Split(rest);
    assert parts[1..] == Split(rest) && parts[2..] == Split(rest)[1..];
    if IsPlainServer(server) {
      SplitBehind(server, tool);
      JoinUndoesSplit(tool);
      assert ([server] + Split(tool))[1..] == Split(tool);
    } else {
      var i := Find(rest);
      assert |Split(rest)[0]| == i;
    }
  }

  lemma PrefixIsPlain()
    ensures IsPlainServer(PREFIX)
  {
  }
}
