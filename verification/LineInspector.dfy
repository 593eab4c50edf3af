/** The scanner between an MCP server's output and its client (`LineInspector`). */
module Lines {
  import opened Bytes

  const NEWLINE: Byte := 0x0a

  /** Where the first newline of `s` stands, or `|s|`. */
  function FirstNewline(s: seq<Byte>): (i: nat)
    ensures i <= |s| && NEWLINE !in s[..i]
    ensures i < |s| ==> s[i] == NEWLINE
  {
    if s == [] || s[0] == NEWLINE then 0
    else
      var i := 1 + FirstNewline(s[1..]);
      assert s[..i] == [s[0]] + s[1..][..i - 1];
      i
  }

  /** The complete lines of a stream, each with its newline. */
  function CompleteLines(s: seq<Byte>): (lines: seq<seq<Byte>>)
    decreases |s|
  {
    var i := FirstNewline(s);
    if i == |s| then [] else [s[..i + 1]] + CompleteLines(s[i + 1..])
  }

  /** What follows the last newline. */
  function Tail(s: seq<Byte>): (t: seq<Byte>)
    ensures |t| <= |s| && NEWLINE !in t
    decreases |s|
  {
    var i := FirstNewline(s);
    if i == |s| then s else Tail(s[i + 1..])
  }

  predicate OccursAt(line: seq<Byte>, needle: seq<Byte>, i: nat) {
    i + |needle| <= |line| && line[i..i + |needle|] == needle
  }

  predicate Contains(line: seq<Byte>, needle: seq<Byte>) {
    exists i :: 0 <= i <= |line| && OccursAt(line, needle, i)
  }

  /** The scan list (already escaped, without empty values) and the line limit. */
  datatype Policy = Policy(needles: seq<seq<Byte>>, maxLineBytes: nat) {
    predicate ContainsSecret(line: seq<Byte>) {
      exists k :: 0 <= k < |needles| && Contains(line, needles[k])
    }

    /** A line is `text` and its newline; the limit is on the text. */
    predicate Offends(line: seq<Byte>) {
      |line| > maxLineBytes + 1 || ContainsSecret(line)
    }

    predicate AllClean(lines: seq<seq<Byte>>) {
      forall k :: 0 <= k < |lines| ==> !Offends(lines[k])
    }

    /** Whether a stream must be reported, by what it contains alone. */
    predicate Leaks(stream: seq<Byte>) {
      !AllClean(CompleteLines(stream)) || |Tail(stream)| > maxLineBytes
    }

    lemma LeaksAt(stream: seq<Byte>, before: seq<seq<Byte>>, line: seq<Byte>, rest: seq<Byte>)
      requires CompleteLines(stream) == before + ([line] + CompleteLines(rest))
      ensures Offends(line) ==> Leaks(stream)
      ensures CompleteLines(stream) == before + [line] + CompleteLines(rest)
    {
      assert CompleteLines(stream)[|before|] == line;
    }
  }

  datatype Inspection = Inspection(lines: seq<seq<Byte>>, leaked: bool)

  datatype Inspector = Inspector(pending: seq<Byte>, failed: bool)

  const NEW_INSPECTOR := Inspector([], false)

  predicate Valid(s: Inspector, policy: Policy) {
    NEWLINE !in s.pending && |s.pending| <= policy.maxLineBytes
  }

  function Push(s: Inspector, chunk: seq<Byte>, policy: Policy): (r: (Inspector, Inspection)) {
    if s.failed then (s, Inspection([], true))
    else
      var stream := s.pending + chunk;
      if policy.Leaks(stream) then (Inspector([], true), Inspection([], true))
      else (Inspector(Tail(stream), false), Inspection(CompleteLines(stream), false))
  }

  lemma NoNewline(s: seq<Byte>)
    requires NEWLINE !in s
    ensures FirstNewline(s) == |s| && CompleteLines(s) == [] && Tail(s) == s
  {
  }

  lemma {:induction false} FirstNewlineAfter(cur: seq<Byte>, rest: seq<Byte>)
    requires NEWLINE !in cur
    ensures FirstNewline(cur + rest) == |cur| + FirstNewline(rest)
  {
    if cur == [] {
      assert cur + rest == rest;
    } else {
      assert cur[0] in cur && cur[0] != NEWLINE;
      FirstNewlineAfter(cur[1..], rest);
      assert (cur + rest)[1..] == cur[1..] + rest;
    }
  }

  class LineInspector {
    const policy: Policy
    var pending: seq<seq<Byte>>
    var pendingBytes: nat
    var failed: bool

    ghost predicate Counted()
      reads this
    {
      pendingBytes == |Join(pending)|
    }

    ghost function View(): Inspector
      reads this
    {
      Inspector(Join(pending), failed)
    }

    constructor (policy: Policy)
      ensures this.policy == policy && Counted() && View() == NEW_INSPECTOR
    {
      this.policy := policy;
      pending, pendingBytes, failed := [], 0, false;
    }

    method Fail() returns (r: Inspection)
      modifies this
      ensures Counted() && View() == Inspector([], true) && r == Inspection([], true)
    {
      failed := true;
      pending, pendingBytes := [], 0;
      r := Inspection([], true);
    }

    /** Keeps an unfinished line. */
    method Keep(rest: seq<Byte>) returns (tooLong: bool)
      requires Counted() && Valid(View(), policy) && NEWLINE !in rest
      modifies this`pending, this`pendingBytes
      ensures Counted() && Join(pending) == old(Join(pending)) + rest
      ensures tooLong <==> |Join(pending)| > policy.maxLineBytes
    {
      JoinSnoc(pending, rest);
      pending := pending + [rest];
      pendingBytes := pendingBytes + |rest|;
      tooLong := pendingBytes > policy.maxLineBytes;
    }

    /** Takes one line, ended by the newline at `newline`, off the front of the unread stream. */
    method TakeLine(chunk: seq<Byte>, start: nat, newline: nat) returns (offends: bool, line: seq<Byte>)
      requires Counted() && start <= newline < |chunk|
      modifies this`pending, this`pendingBytes
      ensures line == old(Join(pending)) + chunk[start..newline + 1]
      ensures offends == policy.Offends(line)
      ensures !offends ==> Counted() && Join(pending) == []
    {
      line := Join(pending) + chunk[start..newline + 1];
      if pendingBytes + (newline - start) > policy.maxLineBytes {
        return true, line;
      }
      pending, pendingBytes := [], 0;
      offends := policy.ContainsSecret(line);
    }

    /** The loop over the newlines of a chunk; stops at a line that offends. */
    method ScanLines(chunk: seq<Byte>) returns (offends: bool, lines: seq<seq<Byte>>, start: nat)
      requires Counted() && Valid(View(), policy)
      modifies this`pending, this`pendingBytes
      ensures start <= |chunk|
      ensures offends ==> policy.Leaks(old(Join(pending)) + chunk)
      ensures !offends ==>
        && Counted() && Valid(View(), policy) && policy.AllClean(lines)
        && FirstNewline(chunk[start..]) == |chunk| - start
        && CompleteLines(old(Join(pending)) + chunk) == lines + CompleteLines(Join(pending) + chunk[start..])
        && Tail(old(Join(pending)) + chunk) == Tail(Join(pending) + chunk[start..])
    {
      hide CompleteLines, Tail, FirstNewline, Join;
      ghost var stream := Join(pending) + chunk;
      ghost var unread := stream;
      lines, start := [], 0;
      var newline := FirstNewline(chunk);
      assert chunk[0..] == chunk;
      while newline < |chunk|
        invariant 0 <= start <= |chunk|
        invariant newline == start + FirstNewline(chunk[start..])
        invariant Counted() && Valid(View(), policy)
        invariant unread == Join(pending) + chunk[start..]
        invariant CompleteLines(stream) == lines + CompleteLines(unread) && Tail(stream) == Tail(unread)
        invariant policy.AllClean(lines)
        decreases |chunk| - start
      {
        unread := NextLine(Join(pending), chunk, start, unread);
        var line;
        offends, line := TakeLine(chunk, start, newline);
        policy.LeaksAt(stream, lines, line, unread);
        if offends {
          return true, [], 0;
        }
        lines := lines + [line];
        start := newline + 1;
        assert unread == Join(pending) + chunk[start..];
        newline := start + FirstNewline(chunk[start..]);
      }
      offends := false;
    }

    method PushChunk(chunk: seq<Byte>) returns (r: Inspection)
      requires Counted() && Valid(View(), policy)
      modifies this
      ensures Counted() && Valid(View(), policy)
      ensures View() == Push(old(View()), chunk, policy).0
      ensures r == Push(old(View()), chunk, policy).1
    {
      if failed {
        return Inspection([], true);
      }
      var offends, lines, start := ScanLines(chunk);
      if offends {
        r := Fail();
        return;
      }
      Unfinished(Join(pending), chunk[start..]);
      if start < |chunk| {
        var tooLong := Keep(chunk[start..]);
        if tooLong {
          r := Fail();
          return;
        }
      }
      r := Inspection(lines, false);
    }
  }

  /** One line read: the stream that is then still unread. */
  lemma NextLine(cur: seq<Byte>, chunk: seq<Byte>, start: nat, unread: seq<Byte>) returns (rest: seq<Byte>)
    requires NEWLINE !in cur && start <= |chunk| && FirstNewline(chunk[start..]) < |chunk| - start
    requires unread == cur + chunk[start..]
    ensures
      var newline := start + FirstNewline(chunk[start..]);
      && CompleteLines(unread) == [cur + chunk[start..newline + 1]] + CompleteLines(rest)
      && Tail(unread) == Tail(rest)
      && rest == chunk[newline + 1..]
  {
    hide FirstNewline, CompleteLines, Tail;
    FirstNewlineAfter(cur, chunk[start..]);
    SplitFirst(unread);
    var i := FirstNewline(unread);
    var newline := start + FirstNewline(chunk[start..]);
    rest := unread[i + 1..];
    assert unread[..i + 1] == cur + chunk[start..newline + 1];
    assert rest == chunk[newline + 1..];
  }

  lemma Unfinished(cur: seq<Byte>, rest: seq<Byte>)
    requires NEWLINE !in cur && FirstNewline(rest) == |rest|
    ensures NEWLINE !in rest
    ensures CompleteLines(cur + rest) == [] && Tail(cur + rest) == cur + rest
    ensures rest == [] ==> Tail(cur + rest) == cur
  {
    assert rest[..|rest|] == rest;
    NoNewline(cur + rest);
  }

  lemma {:induction false} JoinSnoc(parts: seq<seq<Byte>>, last: seq<Byte>)
    ensures Join(parts + [last]) == Join(parts) + last
  {
    if parts == [] {
      assert [] + [last] == [last] && Join([last]) == last + [];
    } else {
      JoinSnoc(parts[1..], last);
      assert (parts + [last])[1..] == parts[1..] + [last];
    }
  }

  // Whole streams.

  /** Successive pushes: the final state and every line handed on. */
  function Feed(s: Inspector, chunks: seq<seq<Byte>>, policy: Policy): (r: (Inspector, seq<seq<Byte>>))
    decreases |chunks|
  {
    if chunks == [] then (s, [])
    else
      var (s', inspection) := Push(s, chunks[0], policy);
      var (t, more) := Feed(s', chunks[1..], policy);
      (t, inspection.lines + more)
  }

  /** The first line of a stream and what the rest of it gives. */
  lemma {:induction false} SplitFirst(s: seq<Byte>)
    ensures
      var i := FirstNewline(s);
      if i < |s| then CompleteLines(s) == [s[..i + 1]] + CompleteLines(s[i + 1..]) && Tail(s) == Tail(s[i + 1..])
      else CompleteLines(s) == [] && Tail(s) == s
  {
    hide FirstNewline;
  }

  lemma {:induction false} Reassembled(s: seq<Byte>)
    ensures Join(CompleteLines(s)) + Tail(s) == s
    decreases |s|
  {
    hide CompleteLines, Tail, Join, FirstNewline;
    SplitFirst(s);
    var i := FirstNewline(s);
    if i < |s| {
      var line, rest := s[..i + 1], s[i + 1..];
      Reassembled(rest);
      JoinCons(line, CompleteLines(rest));
      Associative(line, Join(CompleteLines(rest)), Tail(rest));
      assert s == line + rest;
    } else {
      JoinNothing();
      assert [] + s == s;
    }
  }

  lemma JoinNothing()
    ensures Join([]) == []
  {
  }

  lemma JoinCons(first: seq<Byte>, parts: seq<seq<Byte>>)
    ensures Join([first] + parts) == first + Join(parts)
  {
    assert ([first] + parts)[1..] == parts;
  }

  lemma FirstNewlineAppend(a: seq<Byte>, b: seq<Byte>)
    requires FirstNewline(a) < |a|
    ensures FirstNewline(a + b) == FirstNewline(a)
  {
    hide FirstNewline;
    var i := FirstNewline(a);
    assert a + b == a[..i] + (a[i..] + b);
    FirstNewlineAfter(a[..i], a[i..] + b);
    FirstNewlineHere(a[i..] + b);
  }

  lemma FirstNewlineHere(s: seq<Byte>)
    requires s != [] && s[0] == NEWLINE
    ensures FirstNewline(s) == 0
  {
  }

  /** Only the unfinished tail of a beginning matters to what comes after it. */
  lemma {:induction false} SplitAppend(a: seq<Byte>, b: seq<Byte>)
    ensures CompleteLines(a + b) == CompleteLines(a) + CompleteLines(Tail(a) + b)
    ensures Tail(a + b) == Tail(Tail(a) + b)
    decreases |a|
  {
    hide CompleteLines, Tail, FirstNewline;
    SplitFirst(a);
    var i := FirstNewline(a);
    if i < |a| {
      FirstNewlineAppend(a, b);
      var rest := a[i + 1..];
      SplitFirst(a + b);
      assert (a + b)[..i + 1] == a[..i + 1] && (a + b)[i + 1..] == rest + b;
      SplitAppend(rest, b);
      assert [a[..i + 1]] + (CompleteLines(rest) + CompleteLines(Tail(rest) + b)) ==
          ([a[..i + 1]] + CompleteLines(rest)) + CompleteLines(Tail(rest) + b);
    }
  }

  lemma LeakPersists(a: seq<Byte>, b: seq<Byte>, policy: Policy)
    ensures policy.Leaks(a) ==> policy.Leaks(a + b)
    ensures !policy.Leaks(a) ==> (policy.Leaks(Tail(a) + b) <==> policy.Leaks(a + b))
  {
    var before, after := CompleteLines(a), CompleteLines(Tail(a) + b);
    SplitAppend(a, b);
    if k :| 0 <= k < |before| && policy.Offends(before[k]) {
      assert CompleteLines(a + b)[k] == before[k];
    }
    if k :| 0 <= k < |after| && policy.Offends(after[k]) {
      assert CompleteLines(a + b)[|before| + k] == after[k];
    }
    if |Tail(a)| > policy.maxLineBytes {
      LongTail(Tail(a), b, policy);
      if after != [] {
        assert CompleteLines(a + b)[|before|] == after[0];
      }
    }
  }

  /** An overlong unfinished line stays unfinished or becomes an overlong line. */
  lemma LongTail(tail: seq<Byte>, b: seq<Byte>, policy: Policy)
    requires NEWLINE !in tail && |tail| > policy.maxLineBytes
    ensures
      var lines := CompleteLines(tail + b);
      if lines == [] then |Tail(tail + b)| > policy.maxLineBytes else policy.Offends(lines[0])
  {
    FirstNewlineAfter(tail, b);
  }

  /** An inspector that has read `stream` and has handed on `lines`. */
  predicate Follows(s: Inspector, lines: seq<seq<Byte>>, stream: seq<Byte>, policy: Policy) {
    && s.failed == policy.Leaks(stream)
    && (!s.failed ==> s.pending == Tail(stream) && lines == CompleteLines(stream))
    && lines <= CompleteLines(stream)
    && policy.AllClean(lines)
  }

  lemma PushFollows(s: Inspector, lines: seq<seq<Byte>>, stream: seq<Byte>, chunk: seq<Byte>, policy: Policy)
    requires Follows(s, lines, stream, policy)
    ensures
      var (s', inspection) := Push(s, chunk, policy);
      Follows(s', lines + inspection.lines, stream + chunk, policy)
  {
    LeakPersists(stream, chunk, policy);
    SplitAppend(stream, chunk);
    assert lines + [] == lines;
  }

  lemma {:induction false} FeedFollows(s: Inspector, lines: seq<seq<Byte>>, stream: seq<Byte>, chunks: seq<seq<Byte>>,
                                       policy: Policy)
    requires Follows(s, lines, stream, policy)
    ensures
      var (t, more) := Feed(s, chunks, policy);
      Follows(t, lines + more, stream + Join(chunks), policy)
    decreases |chunks|
  {
    if chunks == [] {
      assert stream + [] == stream && lines + [] == lines;
    } else {
      var chunk, rest := chunks[0], chunks[1..];
      var (s', inspection) := Push(s, chunk, policy);
      PushFollows(s, lines, stream, chunk, policy);
      FeedFollows(s', lines + inspection.lines, stream + chunk, rest, policy);
      assert (stream + chunk) + Join(rest) == stream + (chunk + Join(rest));
      var more := Feed(s', rest, policy).1;
      assert (lines + inspection.lines) + more == lines + (inspection.lines + more);
    }
  }

  /**
   * The inspector's promise, for every stream and every way of cutting it: it has failed exactly
   * when the stream leaks; until then it has handed on exactly the complete lines and keeps exactly
   * the tail; and in every case what it handed on is a clean beginning of the stream's lines.
   */
  lemma {:induction false} StreamInspected(chunks: seq<seq<Byte>>, policy: Policy)
    ensures
      var (t, lines) := Feed(NEW_INSPECTOR, chunks, policy);
      && t.failed == policy.Leaks(Join(chunks))
      && (!t.failed ==> lines == CompleteLines(Join(chunks)) && Join(lines) + t.pending == Join(chunks))
      && lines <= CompleteLines(Join(chunks))
      && policy.AllClean(lines)
  {
    hide FirstNewline, CompleteLines, Tail, Join, Feed, Push;
    FollowsNothing(policy);
    FeedFollows(NEW_INSPECTOR, [], [], chunks, policy);
    assert [] + Join(chunks) == Join(chunks);
    var lines := Feed(NEW_INSPECTOR, chunks, policy).1;
    assert [] + lines == lines;
    Reassembled(Join(chunks));
  }

  lemma FollowsNothing(policy: Policy)
    ensures Follows(NEW_INSPECTOR, [], [], policy)
  {
    NoNewline([]);
  }

  lemma {:induction false} FailureIsPermanent(s: Inspector, chunks: seq<seq<Byte>>, policy: Policy)
    requires s.failed
    ensures Feed(s, chunks, policy) == (s, [])
    decreases |chunks|
  {
    if chunks != [] {
      FailureIsPermanent(s, chunks[1..], policy);
      assert Push(s, chunks[0], policy).1.lines + [] == [];
    }
  }

  // Lines and leaks by positions in the stream.

  predicate NoNewlineIn(s: seq<Byte>, from: nat, to: nat)
    requires to <= |s|
  {
    forall k :: from <= k < to ==> s[k] != 0x0a
  }

  predicate StartsAt(s: seq<Byte>, i: nat)
    requires i <= |s|
  {
    i == 0 || s[i - 1] == 0x0a
  }

  /** A complete line runs from `i` to the newline at `j`. */
  predicate LineAt(s: seq<Byte>, i: nat, j: nat) {
    i <= j < |s| && s[j] == 0x0a && NoNewlineIn(s, i, j) && StartsAt(s, i)
  }

  /** What follows the last newline begins at `i`. */
  predicate TailAt(s: seq<Byte>, i: nat) {
    i <= |s| && NoNewlineIn(s, i, |s|) && StartsAt(s, i)
  }

  lemma NoneBefore(s: seq<Byte>)
    ensures NoNewlineIn(s, 0, FirstNewline(s))
  {
    var n := FirstNewline(s);
    hide FirstNewline;
    forall k: nat | k < n ensures s[k] != 0x0a {
      assert s[k] in s[..n];
    }
  }

  /** A line of the stream is the first one, or a line of what follows the first one. */
  lemma LineSplits(s: seq<Byte>, i: nat, j: nat)
    ensures
      var n := FirstNewline(s);
      LineAt(s, i, j) <==>
        || (i == 0 && j == n < |s|)
        || (n < i <= j < |s| && LineAt(s[n + 1..], i - n - 1, j - n - 1))
  {
    NoneBefore(s);
    hide FirstNewline;
    var n := FirstNewline(s);
    if n < i <= j < |s| {
      LineLater(s, n, i - n - 1, j - n - 1);
      hide LineAt;
    }
  }

  lemma LineLater(s: seq<Byte>, n: nat, i: nat, j: nat)
    requires n < |s| && s[n] == 0x0a
    ensures LineAt(s[n + 1..], i, j) <==> LineAt(s, n + 1 + i, n + 1 + j)
  {
    var rest := s[n + 1..];
    assert forall k :: 0 <= k < |rest| ==> rest[k] == s[n + 1 + k];
    assert forall k :: n < k < |s| ==> s[k] == rest[k - n - 1];
  }

  lemma {:induction false} LineIsSomewhere(s: seq<Byte>, line: seq<Byte>) returns (i: nat, j: nat)
    requires line in CompleteLines(s)
    ensures i <= j < |s| && LineAt(s, i, j) && line == s[i..j + 1]
    decreases |s|
  {
    hide FirstNewline, CompleteLines, LineAt;
    SplitFirst(s);
    var n := FirstNewline(s);
    var rest := s[n + 1..];
    if line == s[..n + 1] {
      i, j := 0, n;
    } else {
      i, j := LineIsSomewhere(rest, line);
      assert rest[i..j + 1] == s[n + 1 + i..n + 1 + j + 1];
      i, j := n + 1 + i, n + 1 + j;
    }
    LineSplits(s, i, j);
  }

  lemma {:induction false} LineIsListed(s: seq<Byte>, i: nat, j: nat)
    requires i <= j < |s| && LineAt(s, i, j)
    ensures s[i..j + 1] in CompleteLines(s)
    decreases |s|
  {
    hide FirstNewline, CompleteLines, LineAt;
    SplitFirst(s);
    LineSplits(s, i, j);
    var n := FirstNewline(s);
    if n < i {
      LineIsListed(s[n + 1..], i - n - 1, j - n - 1);
      assert s[n + 1..][i - n - 1..j - n] == s[i..j + 1];
    }
  }

  /** The complete lines of a stream are its stretches that end in a newline and hold no other. */
  lemma LinesExactly(s: seq<Byte>, line: seq<Byte>)
    ensures line in CompleteLines(s) <==> exists i: nat, j: nat :: LineAt(s, i, j) && line == s[i..j + 1]
  {
    if line in CompleteLines(s) {
      var i, j := LineIsSomewhere(s, line);
    }
    if i: nat, j: nat :| LineAt(s, i, j) && line == s[i..j + 1] {
      LineIsListed(s, i, j);
    }
  }

  /** The tail begins where no newline follows and none other than one comes right before. */
  lemma {:induction false} TailIsSomewhere(s: seq<Byte>) returns (i: nat)
    ensures i <= |s| && TailAt(s, i) && Tail(s) == s[i..]
    decreases |s|
  {
    SplitFirst(s);
    NoneBefore(s);
    hide FirstNewline, CompleteLines, Tail;
    var n := FirstNewline(s);
    if n < |s| {
      var rest := s[n + 1..];
      i := TailIsSomewhere(rest);
      assert rest[i..] == s[n + 1 + i..];
      assert forall k :: n < k < |s| ==> s[k] == rest[k - n - 1];
      i := n + 1 + i;
    } else {
      i := 0;
    }
  }

  lemma OneTail(s: seq<Byte>, i: nat, j: nat)
    requires TailAt(s, i) && TailAt(s, j)
    ensures i == j
  {
  }

  /** `needle` stands at `at`. */
  predicate StandsAt(s: seq<Byte>, needle: seq<Byte>, at: nat) {
    at + |needle| <= |s| && forall k :: 0 <= k < |needle| ==> s[at + k] == needle[k]
  }

  ghost predicate Holds(s: seq<Byte>, needle: seq<Byte>, from: nat, to: nat) {
    exists at: nat :: from <= at && at + |needle| <= to && StandsAt(s, needle, at)
  }

  lemma OccursMeans(s: seq<Byte>, needle: seq<Byte>, i: nat, j: nat, at: nat)
    requires i <= at && at + |needle| <= j <= |s|
    ensures OccursAt(s[i..j], needle, at - i) <==> StandsAt(s, needle, at)
  {
    var found := s[i..j][at - i..at - i + |needle|];
    assert forall k :: 0 <= k < |needle| ==> found[k] == s[at + k];
  }

  lemma HoldsMeans(s: seq<Byte>, needle: seq<Byte>, i: nat, j: nat)
    requires i <= j <= |s|
    ensures Contains(s[i..j], needle) <==> Holds(s, needle, i, j)
  {
    var line := s[i..j];
    if k: nat :| k <= |line| && OccursAt(line, needle, k) {
      OccursMeans(s, needle, i, j, i + k);
    }
    if at: nat :| i <= at && at + |needle| <= j && StandsAt(s, needle, at) {
      OccursMeans(s, needle, i, j, at);
    }
  }

  /** A line with more text than the limit, or with a secret in it. */
  ghost predicate BadLine(s: seq<Byte>, policy: Policy, i: nat, j: nat) {
    && LineAt(s, i, j)
    && (j - i > policy.maxLineBytes || exists k :: 0 <= k < |policy.needles| && Holds(s, policy.needles[k], i, j + 1))
  }

  lemma BadLineMeans(s: seq<Byte>, policy: Policy, i: nat, j: nat)
    requires i <= j < |s| && LineAt(s, i, j)
    ensures policy.Offends(s[i..j + 1]) <==> BadLine(s, policy, i, j)
  {
    hide Contains, Holds;
    var line := s[i..j + 1];
    forall k | 0 <= k < |policy.needles|
      ensures Contains(line, policy.needles[k]) <==> Holds(s, policy.needles[k], i, j + 1)
    {
      HoldsMeans(s, policy.needles[k], i, j + 1);
    }
  }

  /**
   * A stream leaks exactly when one of its lines is longer than the limit or holds a secret, or what
   * follows the last newline is longer than the limit.
   */
  lemma LeaksExactly(s: seq<Byte>, policy: Policy)
    ensures policy.Leaks(s) <==>
              || (exists i: nat, j: nat :: BadLine(s, policy, i, j))
              || (exists i: nat :: TailAt(s, i) && |s| - i > policy.maxLineBytes)
  {
    var tail := TailIsSomewhere(s);
    forall i: nat | TailAt(s, i) ensures i == tail {
      OneTail(s, i, tail);
    }
    BadLineListed(s, policy);
    hide CompleteLines, Tail, BadLine, TailAt;
  }

  lemma BadLineListed(s: seq<Byte>, policy: Policy)
    ensures policy.AllClean(CompleteLines(s)) <==> forall i: nat, j: nat :: !BadLine(s, policy, i, j)
  {
    var lines := CompleteLines(s);
    hide CompleteLines, Holds;
    if k :| 0 <= k < |lines| && policy.Offends(lines[k]) {
      var i, j := LineIsSomewhere(s, lines[k]);
      BadLineMeans(s, policy, i, j);
    }
    if i: nat, j: nat :| BadLine(s, policy, i, j) {
      BadLineMeans(s, policy, i, j);
      LineIsListed(s, i, j);
    }
  }
}
