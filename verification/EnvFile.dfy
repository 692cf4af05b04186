/** The .env file: reading it, and adding a key that is missing or empty. */
module EnvFile {
  import opened Options
  import opened Text

  /** What `.` does not match in a regular expression. */
  predicate IsTerminator(c: char) { c == '\n' || c == '\r' || c == '\U{2028}' || c == '\U{2029}' }

  /** Where `c` first occurs, or the length. */
  function IndexOf(s: string, c: char): (i: nat)
    ensures i <= |s| && (i < |s| ==> s[i] == c) && forall k :: 0 <= k < i ==> s[k] != c
  {
    if s == "" || s[0] == c then 0 else 1 + IndexOf(s[1..], c)
  }

  /** The line after trimming, taken apart by `^([^=]+)=(.*)$`. */
  function ParseLine(line: string): Option<(string, string)> {
    var t := Trim(line);
    var i := IndexOf(t, '=');
    if t == "" || t[0] == '#' || i == 0 || i == |t| || exists c :: c in t[i + 1..] && IsTerminator(c) then None
    else Some((Trim(t[..i]), Trim(t[i + 1..])))
  }

  function Lines(s: string): (lines: seq<string>)
    ensures lines != []
  {
    if s == "" then [""]
    else
      var rest := Lines(s[1..]);
      if s[0] == '\n' then [""] + rest else [[s[0]] + rest[0]] + rest[1..]
  }

  function WithLine(env: map<string, string>, line: string): map<string, string> {
    match ParseLine(line)
    case None => env
    case Some((key, value)) => env[key := value]
  }

  /** Later lines win over earlier ones. */
  function Env(lines: seq<string>): map<string, string> {
    if lines == [] then map[] else WithLine(Env(lines[..|lines| - 1]), lines[|lines| - 1])
  }

  method ParseEnvContent(content: string) returns (result: map<string, string>)
    ensures result == Env(Lines(content))
  {
    hide Lines, Trim, IsTerminator, IndexOf;
    var lines := Lines(content);
    result := map[];
    for n := 0 to |lines|
      invariant result == Env(lines[..n])
    {
      assert lines[..n + 1][..n] == lines[..n];
      var trimmed := Trim(lines[n]);
      if trimmed == "" || trimmed[0] == '#' { continue; }
      var i := IndexOf(trimmed, '=');
      if 0 < i < |trimmed| && forall c :: c in trimmed[i + 1..] ==> !IsTerminator(c) {
        result := result[Trim(trimmed[..i]) := Trim(trimmed[i + 1..])];
      }
    }
    assert lines[..|lines|] == lines;
  }

  function Appended(content: string, key: string, value: string): string {
    var needsNewline := content != "" && content[|content| - 1] != '\n';
    content + (if needsNewline then "\n" else "") + key + "=" + value + "\n"
  }

  predicate Missing(env: map<string, string>, key: string) { key !in env || env[key] == "" }

  class File {
    var content: Option<string>
    ghost var writes: nat

    constructor (content: Option<string>)
      ensures this.content == content && writes == 0
    {
      this.content := content;
      writes := 0;
    }

    ghost function Text(): string
      reads this
    {
      if content.Some? then content.value else ""
    }

    /** The value that the file has for the key afterwards; an existing one is not overwritten. */
    method EnsureEnvKey(key: string, generated: string) returns (value: string)
      modifies this
      ensures var env := Env(Lines(old(Text())));
        if Missing(env, key)
        then value == generated && content == Some(Appended(old(Text()), key, generated)) && writes == old(writes) + 1
        else value == env[key] && content == old(content) && writes == old(writes)
    {
      var text := if content.Some? then content.value else "";
      var env := ParseEnvContent(text);
      if key in env && env[key] != "" { return env[key]; }
      value := generated;
      var needsNewline := |text| > 0 && text[|text| - 1] != '\n';
      content := Some(text + (if needsNewline then "\n" else "") + key + "=" + value + "\n");
      writes := writes + 1;
    }

    /** For a usable key and value, two calls in a row agree, the second writes nothing,
        and no other key is affected. */
    method EnsureTwice(key: string, first: string, second: string) returns (a: string, b: string)
      requires Usable(key, first) && first != ""
      modifies this
      ensures a == b && b != ""
      ensures Env(Lines(Text())) == Env(Lines(old(Text())))[key := b]
      ensures writes <= old(writes) + 1
    {
      a := EnsureEnvKey(key, first);
      RoundTrip(old(Text()), key, first);
      b := EnsureEnvKey(key, second);
    }
  }

  // ---- Lines ----

  lemma LinesStart(s: string)
    ensures Lines("") == [""]
    ensures s != "" ==> var rest := Lines(s[1..]);
      Lines(s) == if s[0] == '\n' then [""] + rest else [[s[0]] + rest[0]] + rest[1..]
  {
  }

  lemma {:induction false} LinesAppend(a: string, b: string)
    ensures Lines(a + "\n" + b) == Lines(a) + Lines(b)
    decreases |a|
  {
    hide Lines;
    var s := a + "\n" + b;
    LinesStart(s);
    LinesStart(a);
    if a == "" {
      assert s[1..] == b;
    } else {
      LinesAppend(a[1..], b);
      assert s[1..] == a[1..] + "\n" + b;
    }
  }

  lemma {:induction false} OneLine(s: string)
    requires '\n' !in s
    ensures Lines(s) == [s]
  {
    if s != "" {
      OneLine(s[1..]);
      assert [s[0]] + s[1..] == s;
    }
  }

  lemma EnvAppend(lines: seq<string>, line: string)
    ensures Env(lines + [line]) == WithLine(Env(lines), line)
  {
    hide WithLine;
    assert (lines + [line])[..|lines|] == lines;
  }

  lemma EmptyLine(env: map<string, string>)
    ensures WithLine(env, "") == env
  {
  }

  /** With or without a newline at the end, the new text is one more line. */
  lemma AppendedIsLine(content: string, key: string, value: string)
    requires '\n' !in key && '\n' !in value
    ensures Env(Lines(Appended(content, key, value))) == WithLine(Env(Lines(content)), key + "=" + value)
  {
    hide WithLine, Env, Lines;
    var line := key + "=" + value;
    OneLine(line);
    OneLine("");
    LinesAppend(line, "");
    assert Lines(line + "\n") == [line, ""] by { assert line + "\n" + "" == line + "\n"; }
    if content != "" && content[|content| - 1] == '\n' {
      var body := content[..|content| - 1];
      assert content == body + "\n" + "" && Appended(content, key, value) == body + "\n" + (line + "\n");
      LinesAppend(body, "");
      LinesAppend(body, line + "\n");
      LastLines(Lines(body), line, [""]);
    } else if content == "" {
      assert Appended(content, key, value) == line + "\n";
      LastLines([], line, [""]);
      LinesStart("");
      assert [] + [line, ""] == [line, ""] && [] + [""] == [""];
    } else {
      assert Appended(content, key, value) == content + "\n" + (line + "\n");
      LinesAppend(content, line + "\n");
      LastLines(Lines(content), line, []);
      assert Lines(content) + [] == Lines(content);
    }
  }

  lemma LastLines(lines: seq<string>, line: string, tail: seq<string>)
    requires tail == [] || tail == [""]
    ensures Env(lines + [line, ""]) == WithLine(Env(lines + tail), line)
  {
    hide WithLine;
    EnvAppend(lines + [line], "");
    assert lines + [line] + [""] == lines + [line, ""];
    EnvAppend(lines, line);
    EnvAppend(lines, "");
    EmptyLine(Env(lines));
    EmptyLine(Env(lines + [line]));
    assert lines + [] == lines;
  }

  // ---- Keys and values that survive ----

  predicate UsableKey(key: string) { key != "" && Trimmed(key) && '=' !in key && key[0] != '#' }

  predicate UsableValue(value: string) { Trimmed(value) && forall c :: c in value ==> !IsTerminator(c) }

  predicate Usable(key: string, value: string) {
    UsableKey(key) && UsableValue(value) && '\n' !in key && '\n' !in value
  }

  lemma {:induction false} IndexOfFirst(a: string, c: char, b: string)
    requires c !in a
    ensures IndexOf(a + [c] + b, c) == |a|
  {
    var s := a + [c] + b;
    assert s[|a|] == c;
    assert forall k :: 0 <= k < |a| ==> s[k] == a[k] && a[k] in a;
  }

  lemma UsableParses(key: string, value: string)
    requires UsableKey(key) && UsableValue(value)
    ensures ParseLine(key + "=" + value) == Some((key, value))
  {
    var line := key + "=" + value;
    hide IsTerminator, IsSpace;
    assert line[0] == key[0];
    assert line[|line| - 1] == if value == "" then '=' else value[|value| - 1];
    EqualsIsNoSpace();
    TrimmedIsKept(line);
    IndexOfFirst(key, '=', value);
    assert line[..|key|] == key && line[|key| + 1..] == value;
    TrimmedIsKept(key);
    TrimmedIsKept(value);
  }

  lemma EqualsIsNoSpace()
    ensures !IsSpace('=')
  {
  }

  lemma {:induction false} TrimStartIn(s: string, c: char)
    ensures c in TrimStart(s) ==> c in s
    ensures s != "" && !IsSpace(s[0]) ==> TrimStart(s) == s
  {
    hide IsSpace;
    if s != "" && IsSpace(s[0]) {
      TrimStartIn(s[1..], c);
    }
  }

  lemma {:induction false} TrimEndIn(s: string, c: char)
    ensures c in TrimEnd(s) ==> c in s
    ensures TrimEnd(s) != "" ==> s != "" && TrimEnd(s)[0] == s[0]
  {
    hide IsSpace;
    if s != "" && IsSpace(s[|s| - 1]) {
      TrimEndIn(s[..|s| - 1], c);
    }
  }

  lemma TrimIn(s: string, c: char)
    ensures c in Trim(s) ==> c in s
    ensures s != "" && !IsSpace(s[0]) && Trim(s) != "" ==> Trim(s)[0] == s[0]
  {
    hide IsSpace, TrimStart, TrimEnd;
    TrimStartIn(s, c);
    TrimEndIn(TrimStart(s), c);
  }

  /** Whatever a line parses to could have been written as it is. */
  lemma ParsedIsUsable(line: string)
    requires ParseLine(line).Some?
    ensures UsableKey(ParseLine(line).value.0) && UsableValue(ParseLine(line).value.1)
  {
    var t := Trim(line);
    var i := IndexOf(t, '=');
    var k, v := t[..i], t[i + 1..];
    hide IsTerminator, IsSpace, Trim, IndexOf;
    TrimIsTrimmed(line);
    TrimIsTrimmed(k);
    TrimIsTrimmed(v);
    TrimIn(k, '=');
    assert '=' !in k;
    assert k[0] == t[0];
    FirstSurvives(k);
    forall c | c in Trim(v)
      ensures !IsTerminator(c)
    {
      TrimIn(v, c);
    }
  }

  lemma {:induction false} FirstSurvives(s: string)
    requires s != "" && !IsSpace(s[0])
    ensures Trim(s) != ""
  {
    hide IsSpace;
    TrimStartIn(s, s[0]);
    EndKeepsFirst(s);
  }

  lemma {:induction false} EndKeepsFirst(s: string)
    requires s != "" && !IsSpace(s[0])
    ensures TrimEnd(s) != ""
  {
    hide IsSpace;
    if IsSpace(s[|s| - 1]) {
      EndKeepsFirst(s[..|s| - 1]);
    }
  }

  /** A line parses to the two texts it was made of exactly when both are usable. */
  lemma ParsesExactly(key: string, value: string)
    ensures ParseLine(key + "=" + value) == Some((key, value)) <==> UsableKey(key) && UsableValue(value)
  {
    hide ParseLine, UsableKey, UsableValue;
    if UsableKey(key) && UsableValue(value) {
      UsableParses(key, value);
    }
    if ParseLine(key + "=" + value) == Some((key, value)) {
      ParsedIsUsable(key + "=" + value);
    }
  }

  // ---- What a line parses to ----

  /** The line is the key and the value with '=' between them, each with any padding, and fit to be one line. */
  ghost predicate Reads(line: string, key: string, value: string) {
    exists a: string, b: string, c: string, d: string ::
      ReadsWith(line, key, value, a, b, c, d)
  }

  predicate ReadsWith(line: string, key: string, value: string, a: string, b: string, c: string, d: string) {
    && line == a + (key + b + "=" + c + value) + d && Blank(a) && Blank(b) && Blank(c) && Blank(d)
    && UsableKey(key) && UsableValue(value) && forall x :: x in c ==> !IsTerminator(x)
  }

  lemma BlankHasNoEquals(s: string)
    requires Blank(s)
    ensures '=' !in s
  {
    EqualsIsNoSpace();
    hide IsSpace;
  }

  /** The line without its outer padding. */
  lemma CoreParses(key: string, b: string, c: string, value: string)
    requires Blank(b) && Blank(c) && UsableKey(key) && UsableValue(value) && forall x :: x in c ==> !IsTerminator(x)
    requires value == "" ==> c == ""
    ensures var core := key + b + "=" + c + value; Trimmed(core) && ParseLine(core) == Some((key, value))
  {
    var core := key + b + "=" + c + value;
    var left, right := key + b, c + value;
    hide IsTerminator, IsSpace;
    EqualsIsNoSpace();
    BlankHasNoEquals(b);
    assert core == left + ['='] + right;
    assert core[0] == key[0] && core[|core| - 1] == if value == "" then '=' else value[|value| - 1];
    TrimmedIsKept(core);
    IndexOfFirst(left, '=', right);
    assert core[..|left|] == left && core[|left| + 1..] == right;
    assert "" + key + b == left && c + value + "" == right;
    TrimPads("", key, b);
    TrimPads(c, value, "");
  }

  lemma ParseTrimmed(line: string)
    ensures Trim(line) == line || ParseLine(line) == ParseLine(Trim(line))
  {
    TrimIsTrimmed(line);
  }

  lemma ReadsParse(line: string, key: string, value: string)
    requires Reads(line, key, value)
    ensures ParseLine(line) == Some((key, value))
  {
    hide UsableKey, UsableValue, IsTerminator, IsSpace, ParseLine, Trim;
    ParseTrimmed(line);
    var a, b, c, d :| ReadsWith(line, key, value, a, b, c, d);
    if value == "" {
      CoreParses(key, b, "", "");
      var core := key + b + "=" + "" + "";
      assert core + (c + d) == (key + b + "=" + c + value) + d;
      assert line == a + core + (c + d);
      TrimPads(a, core, c + d);
      ParseTrimmed(core);
      TrimmedIsKept(core);
    } else {
      CoreParses(key, b, c, value);
      var core := key + b + "=" + c + value;
      TrimPads(a, core, d);
      ParseTrimmed(core);
      TrimmedIsKept(core);
    }
  }

  lemma PaddedStart(a: string, s: string)
    requires Blank(a) && a != ""
    ensures a + s != "" && IsSpace((a + s)[0])
  {
    hide IsSpace;
    assert (a + s)[0] == a[0];
  }

  lemma PaddedEnd(s: string, b: string)
    requires Blank(b) && b != ""
    ensures s + b != "" && IsSpace((s + b)[|s + b| - 1])
  {
    hide IsSpace;
    assert (s + b)[|s + b| - 1] == b[|b| - 1];
  }

  /** What is left of '=' is padded on the right only... */
  lemma LeftReads(left: string) returns (b: string)
    requires left != "" && !IsSpace(left[0])
    ensures left == Trim(left) + b && Blank(b)
  {
    hide IsSpace, Trim, Blank;
    var a;
    a, b := TrimSplits(left);
    assert a + Trim(left) + b == a + (Trim(left) + b);
    if a != "" {
      PaddedStart(a, Trim(left) + b);
    }
  }

  /** ...and what is right of it on the left only. */
  lemma RightReads(right: string) returns (c: string)
    requires right != "" ==> !IsSpace(right[|right| - 1])
    ensures right == c + Trim(right) && Blank(c)
  {
    hide IsSpace, Trim, Blank;
    var d;
    c, d := TrimSplits(right);
    if d != "" {
      PaddedEnd(c + Trim(right), d);
    }
  }

  /** A trimmed line around its first '='. */
  lemma TrimmedReads(t: string) returns (b: string, c: string)
    requires Trimmed(t) && t != "" && 0 < IndexOf(t, '=') < |t|
    ensures var i := IndexOf(t, '=');
      && t == Trim(t[..i]) + b + "=" + c + Trim(t[i + 1..]) && Blank(b) && Blank(c)
      && forall x :: x in c ==> x in t[i + 1..]
  {
    var i := IndexOf(t, '=');
    var left, right := t[..i], t[i + 1..];
    assert left[0] == t[0] && (right != "" ==> right[|right| - 1] == t[|t| - 1]);
    assert t[i] == '=' && '=' in t;
    hide Trim, IndexOf, IsSpace, Blank;
    b := LeftReads(left);
    c := RightReads(right);
    SplitReads(t, left, b, right, c);
  }

  lemma ParsedReads(line: string)
    requires ParseLine(line).Some?
    ensures Reads(line, ParseLine(line).value.0, ParseLine(line).value.1)
  {
    ParsedIsUsable(line);
    TrimIsTrimmed(line);
    hide Trim, IndexOf, UsableKey, UsableValue, IsTerminator, Blank, Trimmed;
    var a, d := TrimSplits(line);
    var b, c := TrimmedReads(Trim(line));
    assert ReadsWith(line, ParseLine(line).value.0, ParseLine(line).value.1, a, b, c, d);
  }

  lemma SplitReads(t: string, left: string, b: string, right: string, c: string)
    requires '=' in t && IndexOf(t, '=') < |t| && left == t[..IndexOf(t, '=')] && right == t[IndexOf(t, '=') + 1..]
    requires left == Trim(left) + b && right == c + Trim(right)
    ensures t == Trim(left) + b + "=" + c + Trim(right)
  {
    hide Trim, IndexOf;
    var i := IndexOf(t, '=');
    assert t == t[..i] + [t[i]] + t[i + 1..];
    assert t == left + "=" + right;
    assert (Trim(left) + b) + "=" + (c + Trim(right)) == Trim(left) + b + "=" + c + Trim(right);
  }

  /** A line parses to a key and a value exactly if it is these two around a '=', padded with white space on either
      side of each; lines that end with a carriage return included. */
  lemma ParsesToExactly(line: string, key: string, value: string)
    ensures ParseLine(line) == Some((key, value)) <==> Reads(line, key, value)
  {
    hide ParseLine, Reads;
    if Reads(line, key, value) {
      ReadsParse(line, key, value);
    }
    if ParseLine(line) == Some((key, value)) {
      ParsedReads(line);
    }
  }

  /** So comments, blank lines and lines without a key say nothing. */
  lemma SaysNothing(line: string)
    requires Trim(line) == "" || Trim(line)[0] == '#' || Trim(line)[0] == '=' || '=' !in line
    ensures ParseLine(line).None?
  {
    if '=' !in line {
      TrimIn(line, '=');
      IndexMissing(Trim(line), '=');
    }
  }

  lemma {:induction false} IndexMissing(s: string, c: char)
    requires c !in s
    ensures IndexOf(s, c) == |s|
  {
    if s != "" {
      IndexMissing(s[1..], c);
    }
  }

  // ---- The round trip ----

  /** Appending sets the key and nothing else. */
  lemma RoundTrip(content: string, key: string, value: string)
    requires Usable(key, value)
    ensures Env(Lines(Appended(content, key, value))) == Env(Lines(content))[key := value]
  {
    hide ParseLine, Env, Lines, Appended, UsableKey, UsableValue;
    AppendedIsLine(content, key, value);
    UsableParses(key, value);
  }

  /** For one-line texts that is so exactly when both are usable. */
  lemma RoundTripExactly(content: string, key: string, value: string)
    requires '\n' !in key && '\n' !in value && value != "" && Missing(Env(Lines(content)), key)
    ensures Env(Lines(Appended(content, key, value))) == Env(Lines(content))[key := value]
      <==> UsableKey(key) && UsableValue(value)
  {
    hide ParseLine, Env, Lines, Appended, UsableKey, UsableValue;
    var env := Env(Lines(content));
    AppendedIsLine(content, key, value);
    ParsesExactly(key, value);
    var parsed := ParseLine(key + "=" + value);
    if parsed.Some? && parsed.value != (key, value) {
      assert parsed.value.0 == key ==> env[key := parsed.value.1][key] != value;
    }
    assert env[key := value][key] == value;
  }

  /** In the map that is read, a key has the value of the last line that parses to it. */
  lemma {:induction false} LastLineWins(lines: seq<string>, key: string)
    ensures key in Env(lines) <==> exists n :: 0 <= n < |lines| && IsLineOf(lines[n], key)
    ensures key in Env(lines) ==>
      exists n :: 0 <= n < |lines| && IsLast(lines, n, key) && Env(lines)[key] == ParseLine(lines[n]).value.1
    decreases |lines|
  {
    hide ParseLine;
    if lines != [] {
      var last := |lines| - 1;
      LastLineWins(lines[..last], key);
      if !IsLineOf(lines[last], key) && key in Env(lines[..last]) {
        var n :| 0 <= n < last && IsLast(lines[..last], n, key)
          && Env(lines[..last])[key] == ParseLine(lines[..last][n]).value.1;
        assert forall m :: n <= m < last ==> lines[..last][m] == lines[m];
        assert IsLast(lines, n, key);
      } else if IsLineOf(lines[last], key) {
        assert IsLast(lines, last, key);
      }
    }
  }

  predicate IsLineOf(line: string, key: string) { ParseLine(line).Some? && ParseLine(line).value.0 == key }

  predicate IsLast(lines: seq<string>, n: nat, key: string) {
    n < |lines| && IsLineOf(lines[n], key) && forall m :: n < m < |lines| ==> !IsLineOf(lines[m], key)
  }
}
