/** What a message of a conversation says, which files it writes, and which calls failed. */
module Messages {
  import opened Options
  import opened Text

  datatype Role = User | Assistant | Tool | OtherRole

  /** A missing name or id is the empty string; entries of `input` that are not strings are left out. */
  datatype Part =
    | Words(text: string)
    | ToolCall(name: string, id: string, input: map<string, string>)
    | ToolResult(id: string, failed: bool)
    | OtherPart

  datatype Message = Message(id: string, role: Role, hidden: bool, createdAt: Option<string>, parts: seq<Part>)

  const FileTools: set<string> := {"write_file", "edit_file"}

  const PathKeys: seq<string> := ["path", "file_path", "filePath"]

  // ---- Parts and messages ----

  /** The first of these keys with a text that is not blank gives the path. */
  function PathAt(input: map<string, string>, keys: seq<string>): string {
    if keys == [] then ""
    else if keys[0] in input && Trim(input[keys[0]]) != "" then Trim(input[keys[0]])
    else PathAt(input, keys[1..])
  }

  method FilePathOf(input: map<string, string>) returns (path: string)
    ensures path == PathAt(input, PathKeys)
  {
    for k := 0 to |PathKeys|
      invariant PathAt(input, PathKeys) == PathAt(input, PathKeys[k..])
    {
      var key := PathKeys[k];
      if key in input && Trim(input[key]) != "" {
        return Trim(input[key]);
      }
    }
    path := "";
  }

  /** The path this part writes, unless it failed or writes none. */
  function WrittenBy(part: Part, failed: set<string>): string {
    if part.ToolCall? && part.name in FileTools && (part.id == "" || part.id !in failed)
    then PathAt(part.input, PathKeys) else ""
  }

  function PathsOf(parts: seq<Part>, failed: set<string>): seq<string> {
    if parts == [] then []
    else
      var n := |parts| - 1;
      PathsOf(parts[..n], failed) + if WrittenBy(parts[n], failed) == "" then [] else [WrittenBy(parts[n], failed)]
  }

  predicate Writes(m: Message) { m.role.Assistant? || m.role.Tool? }

  function Paths(m: Message, failed: set<string>): seq<string> { if Writes(m) then PathsOf(m.parts, failed) else [] }

  method FilesIn(m: Message, failed: set<string>) returns (files: seq<string>)
    ensures files == Paths(m, failed)
  {
    files := [];
    if !m.role.Assistant? && !m.role.Tool? { return; }
    for k := 0 to |m.parts|
      invariant files == PathsOf(m.parts[..k], failed)
    {
      assert m.parts[..k + 1][..k] == m.parts[..k];
      var part := m.parts[k];
      if !part.ToolCall? || part.name !in FileTools { continue; }
      if part.id != "" && part.id in failed { continue; }
      var path := FilePathOf(part.input);
      if path != "" {
        files := files + [path];
      }
    }
    assert m.parts[..|m.parts|] == m.parts;
  }

  function Lines(parts: seq<Part>): seq<string> {
    if parts == [] then []
    else
      var n := |parts| - 1;
      Lines(parts[..n]) + if parts[n].Words? && Trim(parts[n].text) != "" then [Trim(parts[n].text)] else []
  }

  function Joined(lines: seq<string>): string {
    if lines == [] then ""
    else if |lines| == 1 then lines[0]
    else Joined(lines[..|lines| - 1]) + "\n" + lines[|lines| - 1]
  }

  function TextOf(m: Message): string { Trim(Joined(Lines(m.parts))) }

  method MessageText(m: Message) returns (text: string)
    ensures text == TextOf(m)
  {
    var lines: seq<string> := [];
    for k := 0 to |m.parts|
      invariant lines == Lines(m.parts[..k])
    {
      assert m.parts[..k + 1][..k] == m.parts[..k];
      if m.parts[k].Words? && Trim(m.parts[k].text) != "" {
        lines := lines + [Trim(m.parts[k].text)];
      }
    }
    assert m.parts[..|m.parts|] == m.parts;
    text := Trim(Joined(lines));
  }

  predicate IsFailure(part: Part, id: string) { part.ToolResult? && part.failed && part.id == id }

  predicate FailsIn(m: Message, id: string) {
    id != "" && !m.hidden && exists k :: 0 <= k < |m.parts| && IsFailure(m.parts[k], id)
  }

  /** The calls whose result, anywhere in the conversation, was a failure. */
  ghost predicate Fails(ms: seq<Message>, id: string) {
    exists n :: 0 <= n < |ms| && FailsIn(ms[n], id)
  }

  ghost predicate FailedIn(ms: seq<Message>, failed: set<string>) {
    forall id :: id in failed <==> Fails(ms, id)
  }

  method FailedToolIds(ms: seq<Message>) returns (failed: set<string>)
    ensures FailedIn(ms, failed)
  {
    failed := {};
    for n := 0 to |ms|
      invariant forall id :: id in failed <==> exists m :: 0 <= m < n && FailsIn(ms[m], id)
    {
      if ms[n].hidden { continue; }
      var before := failed;
      for k := 0 to |ms[n].parts|
        invariant forall id :: id in failed <==>
          (id in before
           || (id != "" && exists q :: 0 <= q < k && IsFailure(ms[n].parts[q], id)))
      {
        var part := ms[n].parts[k];
        if part.ToolResult? && part.failed && part.id != "" {
          failed := failed + {part.id};
        }
      }
      assert forall id :: id in failed <==> id in before || FailsIn(ms[n], id);
    }
  }

  /** `found` added at the end, without those already there. */
  function Merged(current: seq<string>, found: seq<string>): seq<string>
    decreases |found|
  {
    if found == [] then current
    else
      var n := |found| - 1;
      var sofar := Merged(current, found[..n]);
      if found[n] in sofar then sofar else sofar + [found[n]]
  }

  method MergeFiles(current: seq<string>, found: seq<string>) returns (next: seq<string>)
    ensures next == Merged(current, found)
  {
    var seen := set p | p in current;
    next := current;
    for k := 0 to |found|
      invariant next == Merged(current, found[..k])
      invariant forall p :: p in seen <==> p in next
    {
      assert found[..k + 1][..k] == found[..k];
      if found[k] !in seen {
        seen := seen + {found[k]};
        next := next + [found[k]];
      }
    }
    assert found[..|found|] == found;
  }

  predicate NoRepeats(s: seq<string>) { forall i, j :: 0 <= i < j < |s| ==> s[i] != s[j] }

  lemma {:induction false} MergedAre(current: seq<string>, found: seq<string>)
    requires NoRepeats(current)
    ensures NoRepeats(Merged(current, found))
    ensures forall p :: p in Merged(current, found) <==> p in current || p in found
    decreases |found|
  {
    if found != [] {
      var n := |found| - 1;
      MergedAre(current, found[..n]);
      assert forall p :: p in found <==> p in found[..n] || p == found[n];
    }
  }

  // ---- Paths, told from the calls ----

  predicate Blank(input: map<string, string>, key: string) { key !in input || Trim(input[key]) == "" }

  /** The first text that is not blank, among those three, trims to this path. */
  predicate NamesPath(input: map<string, string>, path: string) {
    if !Blank(input, "path") then path == Trim(input["path"])
    else if !Blank(input, "file_path") then path == Trim(input["file_path"])
    else !Blank(input, "filePath") && path == Trim(input["filePath"])
  }

  /** Part `q` is a call that writes a file at this path, and no result of the call was a failure. */
  ghost predicate WritesAt(m: Message, q: nat, ms: seq<Message>, path: string) {
    && q < |m.parts| && !m.hidden && (m.role.Assistant? || m.role.Tool?)
    && m.parts[q].ToolCall? && (m.parts[q].name == "write_file" || m.parts[q].name == "edit_file")
    && NamesPath(m.parts[q].input, path)
    && (m.parts[q].id == "" || !Failing(ms, m.parts[q].id))
  }

  /** A message that is not hidden holds a failed result of this call. */
  ghost predicate Failing(ms: seq<Message>, id: string) {
    exists n, k :: 0 <= n < |ms| && 0 <= k < |ms[n].parts| && !ms[n].hidden && ms[n].parts[k] == ToolResult(id, true)
  }

  lemma FailsExactly(ms: seq<Message>, id: string)
    ensures Fails(ms, id) <==> id != "" && Failing(ms, id)
  {
    if id != "" && Failing(ms, id) {
      var n, k :| 0 <= n < |ms| && 0 <= k < |ms[n].parts| && !ms[n].hidden && ms[n].parts[k] == ToolResult(id, true);
      assert IsFailure(ms[n].parts[k], id);
      assert FailsIn(ms[n], id);
    }
  }

  lemma PathAtExactly(input: map<string, string>, path: string)
    ensures path != "" && PathAt(input, PathKeys) == path <==> NamesPath(input, path)
  {
    hide Trim;
    var two, one := ["file_path", "filePath"], ["filePath"];
    assert PathKeys[1..] == two && two[1..] == one && one[1..] == [];
    assert PathAt(input, one) == if Blank(input, "filePath") then "" else Trim(input["filePath"]);
    assert PathAt(input, two) == if Blank(input, "file_path") then PathAt(input, one) else Trim(input["file_path"]);
    assert PathAt(input, PathKeys) == if Blank(input, "path") then PathAt(input, two) else Trim(input["path"]);
  }

  lemma WrittenByExactly(m: Message, q: nat, ms: seq<Message>, failed: set<string>, path: string)
    requires FailedIn(ms, failed) && q < |m.parts|
    ensures !m.hidden && Writes(m) && path != "" && WrittenBy(m.parts[q], failed) == path <==> WritesAt(m, q, ms, path)
  {
    if m.parts[q].ToolCall? {
      PathAtExactly(m.parts[q].input, path);
      FailsExactly(ms, m.parts[q].id);
    }
    hide PathAt, NamesPath, Fails, Failing;
  }

  // ---- Texts, told from the parts ----

  lemma {:induction false} LinesSplit(a: seq<Part>, b: seq<Part>)
    ensures Lines(a + b) == Lines(a) + Lines(b)
    decreases |b|
  {
    if b == [] {
      assert a + b == a;
    } else {
      assert (a + b)[..|a + b| - 1] == a + b[..|b| - 1];
      LinesSplit(a, b[..|b| - 1]);
    }
  }

  predicate AllTrimmed(lines: seq<string>) { forall k :: 0 <= k < |lines| ==> lines[k] != "" && Trimmed(lines[k]) }

  lemma {:induction false} LinesTrimmed(parts: seq<Part>)
    ensures AllTrimmed(Lines(parts))
    decreases |parts|
  {
    if parts != [] {
      var n := |parts| - 1;
      LinesTrimmed(parts[..n]);
      if parts[n].Words? {
        TrimIsTrimmed(parts[n].text);
      }
      hide Trim, Trimmed;
    }
  }

  lemma {:induction false} JoinedSplit(a: seq<string>, b: seq<string>)
    requires AllTrimmed(a) && AllTrimmed(b)
    ensures Joined(a + b) == if a == [] then Joined(b) else if b == [] then Joined(a) else Joined(a) + "\n" + Joined(b)
    decreases |b|
  {
    hide Trimmed;
    if b == [] {
      assert a + b == a;
    } else if a == [] {
      assert a + b == b;
    } else {
      var n := |b| - 1;
      assert (a + b)[..|a + b| - 1] == a + b[..n];
      JoinedSplit(a, b[..n]);
      if n > 0 {
        assert Joined(b) == Joined(b[..n]) + "\n" + b[n];
        assert Joined(a) + "\n" + Joined(b[..n]) + "\n" + b[n] == Joined(a) + "\n" + (Joined(b[..n]) + "\n" + b[n]);
      }
    }
  }

  lemma {:induction false} JoinedTrimmed(lines: seq<string>)
    requires AllTrimmed(lines)
    ensures Trimmed(Joined(lines)) && (Joined(lines) == "" <==> lines == [])
    ensures lines != [] ==> Joined(lines)[0] == lines[0][0]
    decreases |lines|
  {
    if |lines| > 1 {
      var n := |lines| - 1;
      JoinedTrimmed(lines[..n]);
      assert Joined(lines)[|Joined(lines)| - 1] == lines[n][|lines[n]| - 1];
      hide IsSpace;
    }
  }

  lemma TextIsJoined(m: Message)
    ensures TextOf(m) == Joined(Lines(m.parts)) && AllTrimmed(Lines(m.parts))
    ensures TextOf(m) == "" <==> Lines(m.parts) == []
  {
    LinesTrimmed(m.parts);
    JoinedTrimmed(Lines(m.parts));
    TrimmedIsKept(Joined(Lines(m.parts)));
    hide Trim, Lines, Joined;
  }

  predicate HasWords(part: Part) { part.Words? && Trim(part.text) != "" }

  /** Some part has words that are not blank. */
  ghost predicate SaysSomething(m: Message) { exists part :: part in m.parts && HasWords(part) }

  lemma {:induction false} LinesExactly(parts: seq<Part>)
    ensures Lines(parts) != [] <==> exists part :: part in parts && HasWords(part)
    decreases |parts|
  {
    hide Trim;
    if parts != [] {
      var n := |parts| - 1;
      LinesExactly(parts[..n]);
      assert Lines(parts) == Lines(parts[..n]) + if HasWords(parts[n]) then [Trim(parts[n].text)] else [];
      hide Lines, HasWords;
      assert forall part :: part in parts <==> part in parts[..n] || part == parts[n];
    }
  }

  lemma SaysExactly(m: Message)
    ensures TextOf(m) != "" <==> SaysSomething(m)
  {
    hide TextOf, Lines, Trim, Joined;
    TextIsJoined(m);
    LinesExactly(m.parts);
  }

  /** The text of a message is that of its parts, one below the other, without the empty ones... */
  lemma TextOfParts(m: Message, a: seq<Part>, b: seq<Part>)
    requires m.parts == a + b
    ensures var s, t := TextOf(m.(parts := a)), TextOf(m.(parts := b));
      TextOf(m) == if s == "" then t else if t == "" then s else s + "\n" + t
  {
    hide TextOf, Lines, Joined, AllTrimmed;
    TextIsJoined(m);
    TextIsJoined(m.(parts := a));
    TextIsJoined(m.(parts := b));
    LinesSplit(a, b);
    JoinedSplit(Lines(a), Lines(b));
  }

  /** ...and that of a single part is its words, trimmed. */
  lemma TextOfPart(m: Message, p: Part)
    requires m.parts == [p]
    ensures TextOf(m) == if p.Words? then Trim(p.text) else ""
  {
    TextIsJoined(m);
    assert m.parts[..0] == [];
    hide Trim;
  }

  lemma TextOfNothing(m: Message)
    requires m.parts == []
    ensures TextOf(m) == ""
  {
    TextIsJoined(m);
  }
}
