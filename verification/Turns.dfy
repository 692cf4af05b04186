/** The completed turns of a conversation: a user's text, the assistant text that closed it, and the files
    written in between. */
module Turns {
  import opened Options
  import opened Text
  import opened Messages

  datatype Turn = Turn(userText: string, assistantText: string, assistantId: string, files: seq<string>,
      createdAt: Option<string>)

  // ---- The fold ----

  datatype Pending = Pending(text: string, createdAt: Option<string>)

  datatype Scan = Scan(turns: seq<Turn>, pending: Option<Pending>, files: seq<string>)

  predicate Opens(m: Message) { !m.hidden && m.role.User? && TextOf(m) != "" }

  predicate Speaks(m: Message) { !m.hidden && m.role.Assistant? && TextOf(m) != "" }

  function Closed(s: Scan, m: Message, files: seq<string>): Scan
    requires s.pending.Some?
  {
    var createdAt := if s.pending.value.createdAt.Some? then s.pending.value.createdAt else m.createdAt;
    Scan(s.turns + [Turn(s.pending.value.text, TextOf(m), m.id, files, createdAt)], None, [])
  }

  function Take(s: Scan, m: Message, failed: set<string>): Scan {
    if m.hidden then s
    else if m.role.User? then
      if TextOf(m) == "" then s else s.(pending := Some(Pending(TextOf(m), m.createdAt)), files := [])
    else
      var files := Merged(s.files, Paths(m, failed));
      if m.role.Assistant? && s.pending.Some? && TextOf(m) != "" then Closed(s, m, files) else s.(files := files)
  }

  function Scanned(ms: seq<Message>, failed: set<string>): Scan {
    if ms == [] then Scan([], None, [])
    else Take(Scanned(ms[..|ms| - 1], failed), ms[|ms| - 1], failed)
  }

  method CompletedTurns(ms: seq<Message>) returns (turns: seq<Turn>, failed: set<string>)
    ensures FailedIn(ms, failed) && turns == Scanned(ms, failed).turns
    ensures exists spans :: Described(turns, spans, ms)
  {
    failed := FailedToolIds(ms);
    turns := [];
    var pendingUser: Option<string> := None;
    var pendingCreatedAt: Option<string> := None;
    var files: seq<string> := [];
    for n := 0 to |ms|
      invariant var s := Scanned(ms[..n], failed);
        && turns == s.turns && files == s.files && pendingUser.Some? == s.pending.Some?
        && (pendingUser.Some? ==>
              pendingUser.value != "" && s.pending.value == Pending(pendingUser.value, pendingCreatedAt))
    {
      assert ms[..n + 1][..n] == ms[..n];
      var m := ms[n];
      if m.hidden { continue; }
      if m.role.User? {
        var text := MessageText(m);
        if text != "" {
          pendingUser, pendingCreatedAt, files := Some(text), m.createdAt, [];
        }
        continue;
      }
      var found := FilesIn(m, failed);
      files := MergeFiles(files, found);
      if m.role.Assistant? && pendingUser.Some? {
        var text := MessageText(m);
        if text == "" { continue; }
        var createdAt := if pendingCreatedAt.Some? then pendingCreatedAt else m.createdAt;
        turns := turns + [Turn(pendingUser.value, text, m.id, files, createdAt)];
        pendingUser, pendingCreatedAt, files := None, None, [];
      }
    }
    assert ms[..|ms|] == ms;
    ghost var spans := TurnsAreDescribed(ms, failed);
  }

  // ---- What the turns are ----

  /** Message `i` opened a turn that message `j` closed: nothing in between does either. */
  ghost predicate Span(ms: seq<Message>, i: nat, j: nat) {
    i < j < |ms| && Opens(ms[i]) && Speaks(ms[j]) && forall k :: i < k < j ==> !Opens(ms[k]) && !Speaks(ms[k])
  }

  /** The text at `i` still waits for its answer. */
  ghost predicate Waits(ms: seq<Message>, i: nat) {
    i < |ms| && Opens(ms[i]) && forall k :: i < k < |ms| ==> !Opens(ms[k]) && !Speaks(ms[k])
  }

  ghost predicate NothingWaits(ms: seq<Message>) { forall i: nat :: !Waits(ms, i) }

  ghost predicate NoSpanTo(ms: seq<Message>, j: nat) { forall i: nat :: !Span(ms, i, j) }

  /** One of the messages from `i` to `j` writes this path by a call that did not fail. */
  ghost predicate WrittenIn(ms: seq<Message>, failed: set<string>, i: nat, j: nat, path: string)
    requires j <= |ms|
  {
    exists k :: i <= k < j && !ms[k].hidden && path in Paths(ms[k], failed)
  }

  /** The paths written by the messages from `i` to `j`, each merged in when it comes. */
  function FilesBetween(ms: seq<Message>, failed: set<string>, i: nat, j: nat): seq<string>
    requires j <= |ms|
    decreases j
  {
    if j <= i then []
    else if ms[j - 1].hidden then FilesBetween(ms, failed, i, j - 1)
    else Merged(FilesBetween(ms, failed, i, j - 1), Paths(ms[j - 1], failed))
  }

  ghost predicate FilesAre(files: seq<string>, ms: seq<Message>, failed: set<string>, i: nat, j: nat)
    requires j <= |ms|
  {
    files == FilesBetween(ms, failed, i, j)
  }

  ghost predicate IsTurn(t: Turn, ms: seq<Message>, failed: set<string>, i: nat, j: nat)
    requires i < j < |ms|
  {
    && t.userText == TextOf(ms[i]) && t.assistantText == TextOf(ms[j]) && t.assistantId == ms[j].id
    && t.createdAt == (if ms[i].createdAt.Some? then ms[i].createdAt else ms[j].createdAt)
    && FilesAre(t.files, ms, failed, i + 1, j + 1)
  }

  /** The turns one by one, with the messages that opened and closed them. */
  ghost predicate Explains(spans: seq<(nat, nat)>, turns: seq<Turn>, ms: seq<Message>, failed: set<string>) {
    && |spans| == |turns|
    && (forall t :: 0 <= t < |spans| ==>
          Span(ms, spans[t].0, spans[t].1) && IsTurn(turns[t], ms, failed, spans[t].0, spans[t].1))
    && (forall t :: 0 <= t < |spans| - 1 ==> spans[t].1 < spans[t + 1].0)
  }

  ghost predicate Complete(spans: seq<(nat, nat)>, ms: seq<Message>) {
    forall i: nat, j: nat :: Span(ms, i, j) ==> (i, j) in spans
  }

  lemma SpanBefore(ms: seq<Message>, i: nat, j: nat)
    requires ms != [] && j < |ms| - 1
    ensures Span(ms, i, j) <==> Span(ms[..|ms| - 1], i, j)
  {
    hide Opens, Speaks;
    assert forall k :: 0 <= k < |ms| - 1 ==> ms[..|ms| - 1][k] == ms[k];
  }

  lemma WaitsBefore(ms: seq<Message>, i: nat)
    requires ms != [] && i < |ms| - 1
    ensures Waits(ms, i) <==> Waits(ms[..|ms| - 1], i) && !Opens(ms[|ms| - 1]) && !Speaks(ms[|ms| - 1])
    ensures Span(ms, i, |ms| - 1) <==> Waits(ms[..|ms| - 1], i) && Speaks(ms[|ms| - 1])
  {
    hide Opens, Speaks;
    assert forall k :: 0 <= k < |ms| - 1 ==> ms[..|ms| - 1][k] == ms[k];
  }

  lemma OneWaits(ms: seq<Message>, i: nat, j: nat)
    requires Waits(ms, i) && Waits(ms, j)
    ensures i == j
  {
    hide Opens, Speaks;
  }

  lemma {:induction false} BetweenBefore(ms: seq<Message>, failed: set<string>, i: nat, j: nat)
    requires ms != [] && j < |ms|
    ensures FilesBetween(ms[..|ms| - 1], failed, i, j) == FilesBetween(ms, failed, i, j)
    decreases j
  {
    hide Merged, Paths;
    if j > i {
      BetweenBefore(ms, failed, i, j - 1);
      assert ms[..|ms| - 1][j - 1] == ms[j - 1];
    }
  }

  lemma FilesBefore(files: seq<string>, ms: seq<Message>, failed: set<string>, i: nat, j: nat)
    requires ms != [] && j < |ms| && FilesAre(files, ms[..|ms| - 1], failed, i, j)
    ensures FilesAre(files, ms, failed, i, j)
  {
    BetweenBefore(ms, failed, i, j);
  }

  /** One more message: the files it writes are merged in. */
  lemma FilesGrow(files: seq<string>, ms: seq<Message>, failed: set<string>, i: nat)
    requires ms != [] && i < |ms| && FilesAre(files, ms[..|ms| - 1], failed, i, |ms| - 1)
    ensures var m := ms[|ms| - 1];
      FilesAre(if m.hidden then files else Merged(files, Paths(m, failed)), ms, failed, i, |ms|)
  {
    hide Paths, Merged;
    BetweenBefore(ms, failed, i, |ms| - 1);
  }

  lemma MergedNothing(files: seq<string>)
    ensures Merged(files, []) == files
  {
  }

  lemma TurnBefore(t: Turn, ms: seq<Message>, failed: set<string>, i: nat, j: nat)
    requires ms != [] && i < j < |ms| - 1 && IsTurn(t, ms[..|ms| - 1], failed, i, j)
    ensures IsTurn(t, ms, failed, i, j)
  {
    hide FilesAre, TextOf;
    FilesBefore(t.files, ms, failed, i + 1, j + 1);
  }

  lemma ExplainsBefore(spans: seq<(nat, nat)>, turns: seq<Turn>, ms: seq<Message>, failed: set<string>)
    requires ms != [] && Explains(spans, turns, ms[..|ms| - 1], failed)
    ensures Explains(spans, turns, ms, failed)
  {
    hide FilesAre, Span, IsTurn;
    forall t | 0 <= t < |spans|
      ensures spans[t].0 < spans[t].1 < |ms|
      ensures Span(ms, spans[t].0, spans[t].1) && IsTurn(turns[t], ms, failed, spans[t].0, spans[t].1)
    {
      SpanInside(ms[..|ms| - 1], spans[t].0, spans[t].1);
      SpanBefore(ms, spans[t].0, spans[t].1);
      TurnBefore(turns[t], ms, failed, spans[t].0, spans[t].1);
    }
  }

  lemma SpanInside(ms: seq<Message>, i: nat, j: nat)
    requires Span(ms, i, j)
    ensures i < j < |ms|
  {
  }

  /** No turn ends at the last message unless it speaks to a text that waits. */
  lemma CompleteBefore(spans: seq<(nat, nat)>, ms: seq<Message>)
    requires ms != [] && Complete(spans, ms[..|ms| - 1])
    requires NoSpanTo(ms, |ms| - 1)
    ensures Complete(spans, ms)
  {
    hide Span;
    forall i: nat, j: nat | Span(ms, i, j)
      ensures (i, j) in spans
    {
      SpanInside(ms, i, j);
      if j < |ms| - 1 {
        SpanBefore(ms, i, j);
      }
    }
  }

  /** The state of the fold, told from the messages. */
  ghost predicate Means(s: Scan, ms: seq<Message>, failed: set<string>, spans: seq<(nat, nat)>, p: Option<nat>) {
    && Explains(spans, s.turns, ms, failed) && Complete(spans, ms)
    && (p.Some? <==> s.pending.Some?)
    && match p
       case Some(i) =>
         && Waits(ms, i) && s.pending.value == Pending(TextOf(ms[i]), ms[i].createdAt)
         && FilesAre(s.files, ms, failed, i + 1, |ms|) && (spans != [] ==> spans[|spans| - 1].1 < i)
       case None => NothingWaits(ms)
  }

  lemma WaitsInside(ms: seq<Message>, i: nat)
    requires Waits(ms, i)
    ensures i < |ms|
  {
  }

  lemma NoneWaitsBefore(ms: seq<Message>)
    requires ms != [] && (Opens(ms[|ms| - 1]) || Speaks(ms[|ms| - 1]) || NothingWaits(ms[..|ms| - 1]))
    ensures forall i: nat :: i < |ms| - 1 ==> !Waits(ms, i)
  {
    hide Opens, Speaks, Waits;
    forall i: nat | i < |ms| - 1
      ensures !Waits(ms, i)
    {
      WaitsBefore(ms, i);
    }
  }

  lemma NoSpanEnds(ms: seq<Message>)
    requires ms != [] && (!Speaks(ms[|ms| - 1]) || NothingWaits(ms[..|ms| - 1]))
    ensures NoSpanTo(ms, |ms| - 1)
  {
    hide Opens, Speaks, Waits, Span;
    var n := |ms| - 1;
    forall i: nat
      ensures !Span(ms, i, n)
    {
      if i < n {
        WaitsBefore(ms, i);
      } else if Span(ms, i, n) {
        SpanInside(ms, i, n);
      }
    }
  }

  /** A user's text replaces the one that waits. */
  lemma OpeningMeans(s: Scan, ms: seq<Message>, failed: set<string>, spans: seq<(nat, nat)>, p: Option<nat>)
    requires ms != [] && Means(s, ms[..|ms| - 1], failed, spans, p) && Opens(ms[|ms| - 1])
    ensures Means(Take(s, ms[|ms| - 1], failed), ms, failed, spans, Some(|ms| - 1))
  {
    var n := |ms| - 1;
    assert Waits(ms, n) && FilesAre([], ms, failed, n + 1, |ms|);
    assert Take(s, ms[n], failed) == s.(pending := Some(Pending(TextOf(ms[n]), ms[n].createdAt)), files := []);
    NoSpanEnds(ms);
    assert spans != [] ==> Span(ms[..n], spans[|spans| - 1].0, spans[|spans| - 1].1);
    hide TextOf, Opens, Speaks, FilesAre, IsTurn, Take;
    ExplainsBefore(spans, s.turns, ms, failed);
    CompleteBefore(spans, ms);
  }

  lemma ClosedTurn(s: Scan, ms: seq<Message>, failed: set<string>, i: nat)
    requires ms != [] && i < |ms| - 1 && s.pending == Some(Pending(TextOf(ms[i]), ms[i].createdAt))
    requires !ms[|ms| - 1].hidden
    requires FilesAre(s.files, ms[..|ms| - 1], failed, i + 1, |ms| - 1)
    ensures var m := ms[|ms| - 1];
      var s' := Closed(s, m, Merged(s.files, Paths(m, failed)));
      s'.turns == s.turns + [s'.turns[|s.turns|]] && IsTurn(s'.turns[|s.turns|], ms, failed, i, |ms| - 1)
  {
    hide TextOf, Merged, Paths, FilesAre;
    FilesGrow(s.files, ms, failed, i + 1);
  }

  lemma ExplainsWith(spans: seq<(nat, nat)>, turns: seq<Turn>, ms: seq<Message>, failed: set<string>, i: nat, t: Turn)
    requires ms != [] && Explains(spans, turns, ms, failed) && (spans != [] ==> spans[|spans| - 1].1 < i)
    requires Span(ms, i, |ms| - 1) && i < |ms| - 1 && IsTurn(t, ms, failed, i, |ms| - 1)
    ensures Explains(spans + [(i, |ms| - 1)], turns + [t], ms, failed)
  {
    hide IsTurn, Span;
  }

  lemma SpeakingTakes(s: Scan, m: Message, failed: set<string>)
    requires Speaks(m) && s.pending.Some?
    ensures !Opens(m) && !m.hidden && Take(s, m, failed) == Closed(s, m, Merged(s.files, Paths(m, failed)))
  {
  }

  /** An answer closes the turn of the text that waits. */
  lemma ClosingMeans(s: Scan, ms: seq<Message>, failed: set<string>, spans: seq<(nat, nat)>, i: nat)
    requires ms != [] && Means(s, ms[..|ms| - 1], failed, spans, Some(i)) && Speaks(ms[|ms| - 1])
    ensures Means(Take(s, ms[|ms| - 1], failed), ms, failed, spans + [(i, |ms| - 1)], None)
  {
    hide TextOf, Opens, Speaks, Take, Merged, Paths, Waits, Span, FilesAre, Explains, Complete, IsTurn;
    var n := |ms| - 1;
    SpeakingTakes(s, ms[n], failed);
    WaitsInside(ms[..n], i);
    assert ms[..n][i] == ms[i];
    WaitsBefore(ms, i);
    ClosedTurn(s, ms, failed, i);
    ExplainsBefore(spans, s.turns, ms, failed);
    ExplainsWith(spans, s.turns, ms, failed, i, Take(s, ms[n], failed).turns[|s.turns|]);
    NoneWaitsBefore(ms);
    LastDoesNotWait(ms);
    CompleteWith(spans, ms, i);
  }

  lemma LastDoesNotWait(ms: seq<Message>)
    requires ms != [] && !Opens(ms[|ms| - 1]) && forall i: nat :: i < |ms| - 1 ==> !Waits(ms, i)
    ensures NothingWaits(ms)
  {
  }

  lemma CompleteWith(spans: seq<(nat, nat)>, ms: seq<Message>, i: nat)
    requires ms != [] && Complete(spans, ms[..|ms| - 1]) && Waits(ms[..|ms| - 1], i)
    ensures Complete(spans + [(i, |ms| - 1)], ms)
  {
    hide Span, Waits;
    var n := |ms| - 1;
    forall a: nat, b: nat | Span(ms, a, b)
      ensures (a, b) in spans + [(i, n)]
    {
      SpanInside(ms, a, b);
      if b < n {
        SpanBefore(ms, a, b);
      } else {
        WaitsBefore(ms, a);
        OneWaits(ms[..n], a, i);
      }
    }
  }

  lemma OtherTakes(s: Scan, m: Message, failed: set<string>)
    requires !Opens(m) && (s.pending.None? || !Speaks(m))
    ensures Take(s, m, failed) == s.(files := if m.hidden then s.files else Merged(s.files, Paths(m, failed)))
  {
    MergedNothing(s.files);
    hide TextOf, Merged;
  }

  /** Any other message at most adds files. */
  lemma OtherMeans(s: Scan, ms: seq<Message>, failed: set<string>, spans: seq<(nat, nat)>, p: Option<nat>)
    requires ms != [] && Means(s, ms[..|ms| - 1], failed, spans, p) && !Opens(ms[|ms| - 1])
    requires p.None? || !Speaks(ms[|ms| - 1])
    ensures Means(Take(s, ms[|ms| - 1], failed), ms, failed, spans, p)
  {
    hide TextOf, Opens, Speaks, Take, Merged, Paths, Waits, Span, FilesAre, IsTurn, Explains, Complete;
    var n := |ms| - 1;
    OtherTakes(s, ms[n], failed);
    NoSpanEnds(ms);
    ExplainsBefore(spans, s.turns, ms, failed);
    CompleteBefore(spans, ms);
    if p.Some? {
      WaitsInside(ms[..n], p.value);
      WaitsBefore(ms, p.value);
      FilesGrow(s.files, ms, failed, p.value + 1);
      assert ms[..n][p.value] == ms[p.value];
    } else {
      NoneWaitsBefore(ms);
      LastDoesNotWait(ms);
    }
  }

  /** The same spans explain the fold whatever calls are taken to have failed. */
  lemma {:induction false} ScanMeans(ms: seq<Message>, failed: set<string>, more: set<string>)
    returns (spans: seq<(nat, nat)>, p: Option<nat>)
    ensures Means(Scanned(ms, failed), ms, failed, spans, p) && Means(Scanned(ms, more), ms, more, spans, p)
    decreases |ms|
  {
    if ms == [] {
      spans, p := [], None;
    } else {
      hide Means, Take, Opens, Speaks;
      var n := |ms| - 1;
      spans, p := ScanMeans(ms[..n], failed, more);
      var s, u := Scanned(ms[..n], failed), Scanned(ms[..n], more);
      if Opens(ms[n]) {
        OpeningMeans(s, ms, failed, spans, p);
        OpeningMeans(u, ms, more, spans, p);
        p := Some(n);
      } else if p.Some? && Speaks(ms[n]) {
        ClosingMeans(s, ms, failed, spans, p.value);
        ClosingMeans(u, ms, more, spans, p.value);
        spans, p := spans + [(p.value, n)], None;
      } else {
        OtherMeans(s, ms, failed, spans, p);
        OtherMeans(u, ms, more, spans, p);
      }
    }
  }

  /** The turns are exactly the spans, in order, each with its texts, its id and its files. */
  lemma TurnsAreSpans(ms: seq<Message>, failed: set<string>) returns (spans: seq<(nat, nat)>)
    ensures Explains(spans, Scanned(ms, failed).turns, ms, failed)
    ensures forall i: nat, j: nat :: Span(ms, i, j) <==> (i, j) in spans
  {
    hide Span, IsTurn, Scanned;
    var p;
    spans, p := ScanMeans(ms, failed, failed);
  }

  // ---- Which files, and in which order, told from the calls ----

  /** Part (k, q) of the conversation comes before part (l, r). */
  predicate Earlier(k: nat, q: nat, l: nat, r: nat) { k < l || (k == l && q < r) }

  /** A call from message `i` on, before part (l, r), that writes this path. */
  ghost predicate Site(ms: seq<Message>, i: nat, l: nat, r: nat, k: nat, q: nat, path: string) {
    i <= k < |ms| && Earlier(k, q, l, r) && WritesAt(ms[k], q, ms, path)
  }

  ghost predicate Sited(ms: seq<Message>, i: nat, l: nat, r: nat, path: string) {
    exists k: nat, q: nat :: Site(ms, i, l, r, k, q, path)
  }

  /** `first` is written before any call writes `second`. */
  ghost predicate Leads(ms: seq<Message>, i: nat, l: nat, r: nat, first: string, second: string) {
    exists k: nat, q: nat :: Site(ms, i, l, r, k, q, first) &&
      forall k2: nat, q2: nat :: Site(ms, i, l, r, k2, q2, second) ==> Earlier(k, q, k2, q2)
  }

  /** The files are exactly the paths written by the calls before part (l, r), once each, as they were first written. */
  ghost predicate FirstWritten(files: seq<string>, ms: seq<Message>, i: nat, l: nat, r: nat) {
    && NoRepeats(files)
    && (forall path :: path in files <==> Sited(ms, i, l, r, path))
    && (forall a, b :: 0 <= a < b < |files| ==> Leads(ms, i, l, r, files[a], files[b]))
  }

  lemma OnePath(m: Message, q: nat, ms: seq<Message>, path: string, other: string)
    requires WritesAt(m, q, ms, path) && WritesAt(m, q, ms, other)
    ensures path == other
  {
    hide Fails, Trim;
  }

  /** The calls before the next part are those before this one, and the call there, if it is one. */
  lemma SiteAt(ms: seq<Message>, i: nat, l: nat, r: nat, k: nat, q: nat, path: string)
    requires i <= l < |ms|
    ensures Site(ms, i, l, r + 1, k, q, path) <==>
      Site(ms, i, l, r, k, q, path) || (k == l && q == r && WritesAt(ms[l], r, ms, path))
  {
    hide WritesAt;
  }

  lemma SitedGrows(ms: seq<Message>, i: nat, l: nat, r: nat, path: string)
    requires i <= l < |ms|
    ensures Sited(ms, i, l, r + 1, path) <==> Sited(ms, i, l, r, path) || WritesAt(ms[l], r, ms, path)
  {
    hide WritesAt, Site;
    if Sited(ms, i, l, r, path) {
      var k: nat, q: nat :| Site(ms, i, l, r, k, q, path);
      SiteAt(ms, i, l, r, k, q, path);
    }
    SiteAt(ms, i, l, r, l, r, path);
    if Sited(ms, i, l, r + 1, path) {
      var k: nat, q: nat :| Site(ms, i, l, r + 1, k, q, path);
      SiteAt(ms, i, l, r, k, q, path);
    }
  }

  lemma SiteInside(ms: seq<Message>, i: nat, l: nat, r: nat, k: nat, q: nat, path: string)
    requires Site(ms, i, l, r, k, q, path)
    ensures Earlier(k, q, l, r)
  {
  }

  lemma LeadsGrows(ms: seq<Message>, i: nat, l: nat, r: nat, first: string, second: string)
    requires i <= l < |ms| && Leads(ms, i, l, r, first, second)
    ensures Leads(ms, i, l, r + 1, first, second)
  {
    hide Site;
    var k: nat, q: nat :| Site(ms, i, l, r, k, q, first) &&
      forall k2: nat, q2: nat :: Site(ms, i, l, r, k2, q2, second) ==> Earlier(k, q, k2, q2);
    SiteAt(ms, i, l, r, k, q, first);
    SiteInside(ms, i, l, r, k, q, first);
    forall k2: nat, q2: nat | Site(ms, i, l, r + 1, k2, q2, second)
      ensures Earlier(k, q, k2, q2)
    {
      SiteAt(ms, i, l, r, k2, q2, second);
    }
  }

  lemma OldLeadsNew(ms: seq<Message>, i: nat, l: nat, r: nat, first: string, second: string)
    requires i <= l < |ms| && Sited(ms, i, l, r, first) && !Sited(ms, i, l, r, second)
    ensures Leads(ms, i, l, r + 1, first, second)
  {
    hide Site;
    var k: nat, q: nat :| Site(ms, i, l, r, k, q, first);
    SiteAt(ms, i, l, r, k, q, first);
    SiteInside(ms, i, l, r, k, q, first);
    forall k2: nat, q2: nat | Site(ms, i, l, r + 1, k2, q2, second)
      ensures Earlier(k, q, k2, q2)
    {
      SiteAt(ms, i, l, r, k2, q2, second);
    }
  }

  /** One more part: its path, if it writes one, comes last unless it is there. */
  lemma PartAdds(files: seq<string>, ms: seq<Message>, failed: set<string>, i: nat, l: nat, r: nat)
    requires FailedIn(ms, failed) && i <= l < |ms| && r < |ms[l].parts| && !ms[l].hidden && Writes(ms[l])
    requires FirstWritten(files, ms, i, l, r)
    ensures var w := WrittenBy(ms[l].parts[r], failed);
      FirstWritten(if w == "" || w in files then files else files + [w], ms, i, l, r + 1)
  {
    hide WritesAt, WrittenBy, Site, Sited, Leads, FailedIn, Writes;
    var w := WrittenBy(ms[l].parts[r], failed);
    var files' := if w == "" || w in files then files else files + [w];
    forall path
      ensures path in files' <==> Sited(ms, i, l, r + 1, path)
    {
      SitedGrows(ms, i, l, r, path);
      WrittenByExactly(ms[l], r, ms, failed, path);
    }
    forall a, b | 0 <= a < b < |files'|
      ensures Leads(ms, i, l, r + 1, files'[a], files'[b])
    {
      if b < |files| {
        LeadsGrows(ms, i, l, r, files[a], files[b]);
      } else {
        OldLeadsNew(ms, i, l, r, files[a], w);
      }
    }
  }

  /** All parts of a message. */
  lemma {:induction false} PartsAdd(files: seq<string>, ms: seq<Message>, failed: set<string>, i: nat, l: nat, r: nat)
    requires FailedIn(ms, failed) && i <= l < |ms| && r <= |ms[l].parts| && !ms[l].hidden && Writes(ms[l])
    requires FirstWritten(files, ms, i, l, 0)
    ensures FirstWritten(Merged(files, PathsOf(ms[l].parts[..r], failed)), ms, i, l, r)
    decreases r
  {
    hide FirstWritten, FailedIn, WrittenBy, Writes;
    var parts := ms[l].parts;
    if r > 0 {
      PartsAdd(files, ms, failed, i, l, r - 1);
      var sofar := PathsOf(parts[..r - 1], failed);
      PartAdds(Merged(files, sofar), ms, failed, i, l, r - 1);
      assert parts[..r][..r - 1] == parts[..r - 1];
      var w := WrittenBy(parts[r - 1], failed);
      if w != "" {
        assert (sofar + [w])[..|sofar + [w]| - 1] == sofar;
      } else {
        assert sofar + [] == sofar;
      }
    } else {
      MergedNothing(files);
    }
  }

  lemma SiteAtEnd(ms: seq<Message>, i: nat, l: nat, r: nat, k: nat, q: nat, path: string)
    requires l < |ms| && forall q: nat, path :: WritesAt(ms[l], q, ms, path) ==> q < r
    ensures Site(ms, i, l + 1, 0, k, q, path) <==> Site(ms, i, l, r, k, q, path)
  {
    hide WritesAt;
  }

  lemma SitedAtEnd(ms: seq<Message>, i: nat, l: nat, r: nat, path: string)
    requires l < |ms| && forall q: nat, path :: WritesAt(ms[l], q, ms, path) ==> q < r
    ensures Sited(ms, i, l + 1, 0, path) <==> Sited(ms, i, l, r, path)
  {
    hide WritesAt, Site;
    if Sited(ms, i, l + 1, 0, path) {
      var k: nat, q: nat :| Site(ms, i, l + 1, 0, k, q, path);
      SiteAtEnd(ms, i, l, r, k, q, path);
    }
    if Sited(ms, i, l, r, path) {
      var k: nat, q: nat :| Site(ms, i, l, r, k, q, path);
      SiteAtEnd(ms, i, l, r, k, q, path);
    }
  }

  lemma LeadsAtEnd(ms: seq<Message>, i: nat, l: nat, r: nat, first: string, second: string)
    requires l < |ms| && forall q: nat, path :: WritesAt(ms[l], q, ms, path) ==> q < r
    requires Leads(ms, i, l, r, first, second)
    ensures Leads(ms, i, l + 1, 0, first, second)
  {
    hide WritesAt, Site;
    var k: nat, q: nat :| Site(ms, i, l, r, k, q, first) &&
      forall k2: nat, q2: nat :: Site(ms, i, l, r, k2, q2, second) ==> Earlier(k, q, k2, q2);
    SiteAtEnd(ms, i, l, r, k, q, first);
    forall k2: nat, q2: nat | Site(ms, i, l + 1, 0, k2, q2, second)
      ensures Earlier(k, q, k2, q2)
    {
      SiteAtEnd(ms, i, l, r, k2, q2, second);
    }
  }

  lemma EndOfMessage(files: seq<string>, ms: seq<Message>, i: nat, l: nat, r: nat)
    requires l < |ms| && FirstWritten(files, ms, i, l, r)
    requires forall q: nat, path :: WritesAt(ms[l], q, ms, path) ==> q < r
    ensures FirstWritten(files, ms, i, l + 1, 0)
  {
    hide WritesAt, Sited, Leads;
    forall path
      ensures path in files <==> Sited(ms, i, l + 1, 0, path)
    {
      SitedAtEnd(ms, i, l, r, path);
    }
    forall a, b | 0 <= a < b < |files|
      ensures Leads(ms, i, l + 1, 0, files[a], files[b])
    {
      LeadsAtEnd(ms, i, l, r, files[a], files[b]);
    }
  }

  lemma NoParts(ms: seq<Message>, i: nat)
    ensures FirstWritten([], ms, i, i, 0)
  {
  }

  lemma WritesInside(ms: seq<Message>, l: nat)
    requires l < |ms|
    ensures forall q: nat, path :: WritesAt(ms[l], q, ms, path) ==> q < |ms[l].parts| && !ms[l].hidden && Writes(ms[l])
  {
  }

  /** The files of a stretch of the conversation. */
  lemma {:induction false} FilesAreFirstWritten(ms: seq<Message>, failed: set<string>, i: nat, j: nat)
    requires FailedIn(ms, failed) && i <= j <= |ms|
    ensures FirstWritten(FilesBetween(ms, failed, i, j), ms, i, j, 0)
    decreases j
  {
    hide FirstWritten, FailedIn, WritesAt, Merged, PathsOf, Writes;
    if j == i {
      NoParts(ms, i);
    } else {
      var files, m := FilesBetween(ms, failed, i, j - 1), ms[j - 1];
      FilesAreFirstWritten(ms, failed, i, j - 1);
      WritesInside(ms, j - 1);
      if !m.hidden && Writes(m) {
        PartsAdd(files, ms, failed, i, j - 1, |m.parts|);
        assert m.parts[..|m.parts|] == m.parts;
        EndOfMessage(Merged(files, PathsOf(m.parts, failed)), ms, i, j - 1, |m.parts|);
      } else {
        MergedNothing(files);
        EndOfMessage(files, ms, i, j - 1, 0);
      }
    }
  }

  /** A turn, told from the messages alone. */
  ghost predicate Describes(t: Turn, ms: seq<Message>, i: nat, j: nat)
    requires i < j < |ms|
  {
    && t.userText == TextOf(ms[i]) && t.assistantText == TextOf(ms[j]) && t.assistantId == ms[j].id
    && t.createdAt == (if ms[i].createdAt.Some? then ms[i].createdAt else ms[j].createdAt)
    && FirstWritten(t.files, ms, i + 1, j + 1, 0)
  }

  /** A user's message that says something, and an assistant's: neither is hidden. */
  ghost predicate Asks(m: Message) { !m.hidden && m.role.User? && SaysSomething(m) }

  ghost predicate Replies(m: Message) { !m.hidden && m.role.Assistant? && SaysSomething(m) }

  /** Message `j` is the first reply after message `i` asks, and nobody asks in between. */
  ghost predicate Exchange(ms: seq<Message>, i: nat, j: nat) {
    i < j < |ms| && Asks(ms[i]) && Replies(ms[j]) && forall k :: i < k < j ==> !Asks(ms[k]) && !Replies(ms[k])
  }

  lemma SpanExactly(ms: seq<Message>, i: nat, j: nat)
    ensures Span(ms, i, j) <==> Exchange(ms, i, j)
  {
    hide TextOf, SaysSomething;
    forall k | 0 <= k < |ms|
      ensures (Asks(ms[k]) <==> Opens(ms[k])) && (Replies(ms[k]) <==> Speaks(ms[k]))
    {
      SaysExactly(ms[k]);
    }
  }

  ghost predicate Described(turns: seq<Turn>, spans: seq<(nat, nat)>, ms: seq<Message>) {
    && |spans| == |turns|
    && (forall t :: 0 <= t < |spans| ==>
          spans[t].0 < spans[t].1 < |ms| && Describes(turns[t], ms, spans[t].0, spans[t].1))
    && (forall t :: 0 <= t < |spans| - 1 ==> spans[t].1 < spans[t + 1].0)
    && forall i: nat, j: nat :: Exchange(ms, i, j) <==> (i, j) in spans
  }

  /** Completed turns are exactly the exchanges, in order; the files of each are, without repeats and as they were first
      written, the paths of the calls to write or edit a file whose result was not a failure. */
  lemma TurnsAreDescribed(ms: seq<Message>, failed: set<string>) returns (spans: seq<(nat, nat)>)
    requires FailedIn(ms, failed)
    ensures Described(Scanned(ms, failed).turns, spans, ms)
  {
    hide Scanned, Span, Exchange, FirstWritten, FailedIn, TextOf;
    spans := TurnsAreSpans(ms, failed);
    forall i: nat, j: nat
      ensures Exchange(ms, i, j) <==> (i, j) in spans
    {
      SpanExactly(ms, i, j);
    }
    forall t | 0 <= t < |spans|
      ensures spans[t].0 < spans[t].1 < |ms|
      ensures Describes(Scanned(ms, failed).turns[t], ms, spans[t].0, spans[t].1)
    {
      SpanInside(ms, spans[t].0, spans[t].1);
      FilesAreFirstWritten(ms, failed, spans[t].0 + 1, spans[t].1 + 1);
    }
  }

  // ---- Hidden messages, and messages still to come ----

  function Shown(ms: seq<Message>): seq<Message> {
    if ms == [] then []
    else Shown(ms[..|ms| - 1]) + if ms[|ms| - 1].hidden then [] else [ms[|ms| - 1]]
  }

  /** Leaving the hidden messages out makes no difference to the turns... */
  lemma {:induction false} HiddenMakeNoDifference(ms: seq<Message>, failed: set<string>)
    ensures Scanned(Shown(ms), failed) == Scanned(ms, failed)
    decreases |ms|
  {
    hide Take;
    if ms != [] {
      HiddenMakeNoDifference(ms[..|ms| - 1], failed);
      if ms[|ms| - 1].hidden {
        HiddenIsSkipped(Scanned(ms[..|ms| - 1], failed), ms[|ms| - 1], failed);
        assert Shown(ms) == Shown(ms[..|ms| - 1]);
      } else {
        assert Shown(ms)[..|Shown(ms)| - 1] == Shown(ms[..|ms| - 1]);
      }
    }
  }

  lemma HiddenIsSkipped(s: Scan, m: Message, failed: set<string>)
    requires m.hidden
    ensures Take(s, m, failed) == s
  {
  }

  /** ...nor to which calls failed. */
  lemma {:induction false} HiddenFailuresDoNotCount(ms: seq<Message>, id: string)
    ensures Fails(Shown(ms), id) <==> Fails(ms, id)
    decreases |ms|
  {
    hide FailsIn;
    if ms != [] {
      var n := |ms| - 1;
      HiddenFailuresDoNotCount(ms[..n], id);
      FailsSplits(ms[..n], ms[n], id);
      assert ms[..n] + [ms[n]] == ms;
      if ms[n].hidden {
        HiddenFails(ms[n], id);
        assert Shown(ms) == Shown(ms[..n]);
      } else {
        FailsSplits(Shown(ms[..n]), ms[n], id);
      }
    }
  }

  lemma HiddenFails(m: Message, id: string)
    requires m.hidden
    ensures !FailsIn(m, id)
  {
  }

  lemma FailsSplits(ms: seq<Message>, m: Message, id: string)
    ensures Fails(ms + [m], id) <==> Fails(ms, id) || FailsIn(m, id)
  {
    hide FailsIn;
    if Fails(ms, id) {
      var n :| 0 <= n < |ms| && FailsIn(ms[n], id);
      assert (ms + [m])[n] == ms[n];
    }
    assert (ms + [m])[|ms|] == m;
  }

  /** A turn without its files. */
  datatype Gist = Gist(userText: string, assistantText: string, assistantId: string, createdAt: Option<string>)

  function GistOf(t: Turn): Gist { Gist(t.userText, t.assistantText, t.assistantId, t.createdAt) }

  function Gists(turns: seq<Turn>): seq<Gist> { seq(|turns|, i requires 0 <= i < |turns| => GistOf(turns[i])) }

  lemma TakeGist(s: Scan, u: Scan, m: Message, failed: set<string>, more: set<string>)
    requires Gists(s.turns) == Gists(u.turns) && s.pending == u.pending
    ensures Gists(Take(s, m, failed).turns) == Gists(Take(u, m, more).turns)
    ensures Take(s, m, failed).pending == Take(u, m, more).pending
  {
    hide TextOf, Merged, Paths;
    assert |s.turns| == |Gists(s.turns)| == |u.turns|;
    assert forall i :: 0 <= i < |s.turns| ==>
      GistOf(s.turns[i]) == Gists(s.turns)[i] == Gists(u.turns)[i] == GistOf(u.turns[i]);
  }

  /** Which calls failed matters to the files only. */
  lemma {:induction false} FailuresChangeFilesOnly(ms: seq<Message>, failed: set<string>, more: set<string>)
    ensures Gists(Scanned(ms, failed).turns) == Gists(Scanned(ms, more).turns)
    ensures Scanned(ms, failed).pending == Scanned(ms, more).pending
    decreases |ms|
  {
    hide Take, Gists;
    if ms != [] {
      FailuresChangeFilesOnly(ms[..|ms| - 1], failed, more);
      TakeGist(Scanned(ms[..|ms| - 1], failed), Scanned(ms[..|ms| - 1], more), ms[|ms| - 1], failed, more);
    }
  }

  lemma TakeKeepsTurns(s: Scan, m: Message, failed: set<string>)
    ensures s.turns <= Take(s, m, failed).turns
  {
    hide TextOf, Merged, Paths;
  }

  lemma {:induction false} TurnsAreKept(ms: seq<Message>, later: seq<Message>, failed: set<string>)
    ensures Scanned(ms, failed).turns <= Scanned(ms + later, failed).turns
    decreases |later|
  {
    hide Take;
    if later == [] {
      assert ms + later == ms;
    } else {
      var n := |later| - 1;
      TurnsAreKept(ms, later[..n], failed);
      assert (ms + later)[..|ms + later| - 1] == ms + later[..n];
      TakeKeepsTurns(Scanned(ms + later[..n], failed), later[n], failed);
    }
  }

  /** Whatever is said later, the turns so far keep their texts, their ids and their times. */
  lemma TurnsArePrefix(ms: seq<Message>, later: seq<Message>, failed: set<string>, more: set<string>)
    ensures Gists(Scanned(ms, failed).turns) <= Gists(Scanned(ms + later, more).turns)
  {
    FailuresChangeFilesOnly(ms, failed, more);
    TurnsAreKept(ms, later, more);
  }

  // ---- Files ----

  lemma {:induction false} PathsWithFailures(parts: seq<Part>, failed: set<string>, more: set<string>, path: string)
    requires failed <= more && path in PathsOf(parts, more)
    ensures path in PathsOf(parts, failed)
    decreases |parts|
  {
    hide PathAt;
    var n := |parts| - 1;
    if path in PathsOf(parts[..n], more) {
      PathsWithFailures(parts[..n], failed, more, path);
    }
  }

  lemma FileRemains(ms: seq<Message>, failed: set<string>, more: set<string>, i: nat, j: nat, path: string)
    requires failed <= more && j <= |ms| && WrittenIn(ms, more, i, j, path)
    ensures WrittenIn(ms, failed, i, j, path)
  {
    hide PathsOf;
    var k :| i <= k < j && !ms[k].hidden && path in Paths(ms[k], more);
    PathsWithFailures(ms[k].parts, failed, more, path);
  }

  /** Without repeats, and exactly those that one of the messages writes. */
  lemma {:induction false} FilesBetweenAre(ms: seq<Message>, failed: set<string>, i: nat, j: nat)
    requires j <= |ms|
    ensures NoRepeats(FilesBetween(ms, failed, i, j))
    ensures forall path :: path in FilesBetween(ms, failed, i, j) <==> WrittenIn(ms, failed, i, j, path)
    decreases j
  {
    hide Merged, Paths;
    if j > i {
      FilesBetweenAre(ms, failed, i, j - 1);
      MergedAre(FilesBetween(ms, failed, i, j - 1), Paths(ms[j - 1], failed));
      forall path
        ensures WrittenIn(ms, failed, i, j, path) <==>
          WrittenIn(ms, failed, i, j - 1, path) || (!ms[j - 1].hidden && path in Paths(ms[j - 1], failed))
      {
      }
    }
  }

  lemma ExplainedFile(spans: seq<(nat, nat)>, turns: seq<Turn>, ms: seq<Message>, failed: set<string>, t: nat,
      path: string)
    requires Explains(spans, turns, ms, failed) && t < |turns|
    ensures |spans| == |turns| && spans[t].0 < spans[t].1 < |ms|
    ensures path in turns[t].files <==> WrittenIn(ms, failed, spans[t].0 + 1, spans[t].1 + 1, path)
  {
    FilesBetweenAre(ms, failed, spans[t].0 + 1, if spans[t].1 < |ms| then spans[t].1 + 1 else 0);
    hide WrittenIn, Opens, Speaks, TextOf, FilesBetween;
  }

  /** A failure that becomes known later can only take files away from a turn. */
  lemma LaterFailuresOnlyRemoveFiles(ms: seq<Message>, failed: set<string>, more: set<string>, t: nat, path: string)
    requires failed <= more && t < |Scanned(ms, more).turns| && path in Scanned(ms, more).turns[t].files
    ensures t < |Scanned(ms, failed).turns| && path in Scanned(ms, failed).turns[t].files
  {
    hide Scanned, Span, Explains, WrittenIn, Complete;
    var spans, p := ScanMeans(ms, failed, more);
    ExplainedFile(spans, Scanned(ms, more).turns, ms, more, t, path);
    FileRemains(ms, failed, more, spans[t].0 + 1, spans[t].1 + 1, path);
    SameLength(spans, Scanned(ms, failed).turns, Scanned(ms, more).turns, ms, failed, more);
    ExplainedFile(spans, Scanned(ms, failed).turns, ms, failed, t, path);
  }

  lemma SameLength(spans: seq<(nat, nat)>, a: seq<Turn>, b: seq<Turn>, ms: seq<Message>, failed: set<string>,
      more: set<string>)
    requires Explains(spans, a, ms, failed) && Explains(spans, b, ms, more)
    ensures |spans| == |a| == |b|
  {
    hide Span, IsTurn;
  }
}
