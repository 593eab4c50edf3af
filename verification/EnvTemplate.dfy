/** Rendering of one environment value of an MCP server from its template. */
module EnvTemplate {
  /** A placeholder, what replaces it, and whether a value holding it is watched for leaks. */
  datatype Value = Value(placeholder: string, text: string, scanned: bool)

  /** A template cut into single characters and placeholders. */
  datatype Piece = Literal(c: char) | Hole(value: Value)

  function Utf8Width(c: char): nat {
    if c as int < 0x80 then 1 else if c as int < 0x800 then 2 else if c as int < 0x10000 then 3 else 4
  }

  /** Values that `n` bytes of UTF-8 can hold: seven bits in one byte, `5n + 1` bits in more. */
  ghost predicate FitsIn(c: char, n: nat) {
    n > 0 && c as int < if n == 1 then TwoTo(7) else TwoTo(5 * n + 1)
  }

  ghost function TwoTo(n: nat): nat {
    if n == 0 then 1 else 2 * TwoTo(n - 1)
  }

  lemma Powers()
    ensures TwoTo(7) == 0x80 && TwoTo(11) == 0x800 && TwoTo(16) == 0x10000 && TwoTo(21) == 0x200000
  {
    assert TwoTo(2) == 4 && TwoTo(4) == 16 && TwoTo(6) == 64;
    assert TwoTo(9) == 0x200;
    assert TwoTo(13) == 0x2000;
    assert TwoTo(15) == 0x8000;
    assert TwoTo(18) == 0x40000;
    assert TwoTo(20) == 0x100000;
  }

  /** A character takes the fewest bytes that can hold it. */
  lemma WidthIsLeast(c: char)
    ensures FitsIn(c, Utf8Width(c)) && forall n: nat :: n < Utf8Width(c) ==> !FitsIn(c, n)
  {
    Powers();
    hide TwoTo;
    assert FitsIn(c, 1) <==> c as int < 0x80;
    assert FitsIn(c, 2) <==> c as int < 0x800;
    assert FitsIn(c, 3) <==> c as int < 0x10000;
  }

  /** Length in bytes. */
  function ByteLength(s: string): nat {
    if s == "" then 0 else Utf8Width(s[0]) + ByteLength(s[1..])
  }

  predicate Replaceable(values: seq<Value>) {
    forall v | v in values :: v.placeholder != ""
  }

  predicate Matches(v: Value, s: string) {
    v.placeholder <= s
  }

  /** No placeholder is a prefix of another. */
  predicate PrefixFree(values: seq<Value>) {
    forall v, w | v in values && w in values && v.placeholder <= w.placeholder :: v == w
  }

  // The meaning of a template, by the set of placeholders alone.

  /** `pieces` spell the template, and a character stands for itself only where no placeholder begins. */
  predicate IsParse(pieces: seq<Piece>, template: string, values: seq<Value>) {
    if pieces == [] then template == ""
    else match pieces[0]
      case Literal(c) =>
        && template != "" && template[0] == c && (forall v | v in values :: !Matches(v, template))
        && IsParse(pieces[1..], template[1..], values)
      case Hole(v) =>
        v in values && Matches(v, template) && IsParse(pieces[1..], template[|v.placeholder|..], values)
  }

  function Text(p: Piece): string {
    match p case Literal(c) => [c] case Hole(v) => v.text
  }

  function Fill(pieces: seq<Piece>): string {
    if pieces == [] then "" else Text(pieces[0]) + Fill(pieces[1..])
  }

  predicate Scans(pieces: seq<Piece>) {
    exists i :: 0 <= i < |pieces| && pieces[i].Hole? && pieces[i].value.scanned
  }

  function Holes(pieces: seq<Piece>): nat {
    if pieces == [] then 0 else (if pieces[0].Hole? then 1 else 0) + Holes(pieces[1..])
  }

  lemma {:induction false} ParseUnique(p: seq<Piece>, q: seq<Piece>, template: string, values: seq<Value>)
    requires PrefixFree(values) && Replaceable(values) && IsParse(p, template, values) && IsParse(q, template, values)
    ensures p == q
    decreases |p|
  {
    if p != [] {
      assert q != [];
      match p[0]
      case Literal(c) => ParseUnique(p[1..], q[1..], template[1..], values);
      case Hole(v) =>
        assert q[0].Hole?;
        SameMatch(v, q[0].value, template, values);
        ParseUnique(p[1..], q[1..], template[|v.placeholder|..], values);
      assert p == [p[0]] + p[1..] && q == [q[0]] + q[1..];
    }
  }

  lemma SameMatch(v: Value, w: Value, s: string, values: seq<Value>)
    requires PrefixFree(values) && v in values && w in values && Matches(v, s) && Matches(w, s)
    ensures v == w
  {
    assert |v.placeholder| <= |w.placeholder| ==> v.placeholder <= w.placeholder;
    assert |w.placeholder| <= |v.placeholder| ==> w.placeholder <= v.placeholder;
  }

  // What the code computes: at each place the first entry of the list that matches.

  function FirstMatch(values: seq<Value>, s: string): (n: nat)
    ensures n <= |values| && (n < |values| ==> Matches(values[n], s))
    ensures forall k :: 0 <= k < n ==> !Matches(values[k], s)
  {
    if values == [] || Matches(values[0], s) then 0 else 1 + FirstMatch(values[1..], s)
  }

  function Parse(template: string, values: seq<Value>): seq<Piece>
    requires Replaceable(values)
    decreases |template|
  {
    if template == "" then []
    else
      var n := FirstMatch(values, template);
      if n < |values| then [Hole(values[n])] + Parse(template[|values[n].placeholder|..], values)
      else [Literal(template[0])] + Parse(template[1..], values)
  }

  lemma {:induction false} ParseIsParse(template: string, values: seq<Value>)
    requires Replaceable(values)
    ensures IsParse(Parse(template, values), template, values)
    decreases |template|
  {
    if template != "" {
      var n := FirstMatch(values, template);
      if n < |values| {
        ParseIsParse(template[|values[n].placeholder|..], values);
      } else {
        ParseIsParse(template[1..], values);
      }
    }
  }

  lemma {:induction false} IsParseSameSet(p: seq<Piece>, template: string, values: seq<Value>, others: seq<Value>)
    requires IsParse(p, template, values) && forall v :: v in values <==> v in others
    ensures IsParse(p, template, others)
    decreases |p|
  {
    if p != [] {
      match p[0]
      case Literal(_) => IsParseSameSet(p[1..], template[1..], values, others);
      case Hole(v) => IsParseSameSet(p[1..], template[|v.placeholder|..], values, others);
    }
  }

  /** The order of the list does not matter when no placeholder is a prefix of another … */
  lemma OrderIndependent(template: string, values: seq<Value>, others: seq<Value>)
    requires Replaceable(values) && PrefixFree(values) && forall v :: v in values <==> v in others
    ensures Parse(template, values) == Parse(template, others)
  {
    ParseIsParse(template, values);
    ParseIsParse(template, others);
    IsParseSameSet(Parse(template, others), template, others, values);
    ParseUnique(Parse(template, values), Parse(template, others), template, values);
  }

  /** `values` with one occurrence of `v` put first. */
  function Promoted(values: seq<Value>, v: Value): (r: seq<Value>)
    requires v in values
    ensures multiset(r) == multiset(values) && r[0] == v
  {
    if values[0] == v then values
    else
      assert values == [values[0]] + values[1..];
      var r := Promoted(values[1..], v);
      assert r == [v] + r[1..];
      [v] + ([values[0]] + r[1..])
  }

  lemma SameEntries(values: seq<Value>, others: seq<Value>)
    requires multiset(values) == multiset(others)
    ensures forall v :: v in values <==> v in others
  {
    forall v ensures v in values <==> v in others {
      assert v in multiset(values) <==> v in multiset(others);
    }
  }

  lemma FirstEntryWins(values: seq<Value>)
    requires Replaceable(values) && values != []
    ensures forall template | template != "" && Matches(values[0], template) ::
              Parse(template, values) != [] && Parse(template, values)[0] == Hole(values[0])
  {
  }

  ghost predicate AnyOrder(values: seq<Value>)
    requires Replaceable(values)
  {
    forall others, template | multiset(others) == multiset(values) && Replaceable(others) ::
      Parse(template, others) == Parse(template, values)
  }

  /**
   * … and only then: a list is cut the same way in every order if and only if no placeholder is a
   * prefix of another.
   */
  lemma OrderMattersExactly(values: seq<Value>)
    requires Replaceable(values)
    ensures AnyOrder(values) <==> PrefixFree(values)
  {
    if PrefixFree(values) {
      forall others, template | multiset(others) == multiset(values) && Replaceable(others)
        ensures Parse(template, others) == Parse(template, values)
      {
        SameEntries(values, others);
        OrderIndependent(template, values, others);
      }
    } else {
      var v, w :| v in values && w in values && v.placeholder <= w.placeholder && v != w;
      var _ := PromotionDecides(values, v, w);
    }
  }

  /** The longer placeholder as a template: whichever of the two entries comes first takes it. */
  lemma PromotionDecides(values: seq<Value>, v: Value, w: Value) returns (other: seq<Value>)
    requires Replaceable(values) && v in values && w in values && v.placeholder <= w.placeholder && v != w
    ensures multiset(other) == multiset(values) && Replaceable(other)
    ensures Parse(w.placeholder, other) != Parse(w.placeholder, values)
  {
    var byV, byW := Promoted(values, v), Promoted(values, w);
    SameEntries(values, byV);
    SameEntries(values, byW);
    FirstEntryWins(byV);
    FirstEntryWins(byW);
    assert w.placeholder != "" && Matches(v, w.placeholder) && Matches(w, w.placeholder);
    other := if Parse(w.placeholder, values) == Parse(w.placeholder, byV) then byW else byV;
  }

  /** The rendered values differ as well, unless the shorter placeholder's text begins the longer one's. */
  lemma RenderingFollowsOrder(values: seq<Value>, v: Value, w: Value)
    requires Replaceable(values) && v in values && w in values && v.placeholder <= w.placeholder && !(v.text <= w.text)
    ensures Replaceable(Promoted(values, v)) && Replaceable(Promoted(values, w))
    ensures Fill(Parse(w.placeholder, Promoted(values, v))) != Fill(Parse(w.placeholder, Promoted(values, w)))
  {
    var byV, byW := Promoted(values, v), Promoted(values, w);
    SameEntries(values, byV);
    SameEntries(values, byW);
    FirstEntryWins(byV);
    assert w.placeholder != "" && Matches(v, w.placeholder);
    var pieces := Parse(w.placeholder, byV);
    FillCons(pieces);
    assert v.text <= Fill(pieces);
    WholePlaceholder(byW, w);
  }

  lemma WholePlaceholder(values: seq<Value>, w: Value)
    requires Replaceable(values) && values != [] && values[0] == w
    ensures Fill(Parse(w.placeholder, values)) == w.text
  {
    assert w.placeholder != "" && FirstMatch(values, w.placeholder) == 0;
    assert w.placeholder[|w.placeholder|..] == "";
    assert Parse(w.placeholder, values) == [Hole(w)] + Parse("", values) == [Hole(w)];
    FillCons([Hole(w)]);
    assert w.text + "" == w.text;
  }

  const SECRET := "{{secret}}"
  const USERNAME := "{{username}}"
  const TOTP := "{{totp}}"

  /** The list built from a credential: a code only when some template asks for one. */
  function CredentialValues(password: string, username: string, totp: string, hasTotp: bool): seq<Value> {
    [Value(SECRET, password, true), Value(USERNAME, username, false)] +
    if hasTotp then [Value(TOTP, totp, true)] else []
  }

  predicate Braced(values: seq<Value>) {
    forall v | v in values :: "{{" <= v.placeholder
  }

  lemma CredentialValuesWellFormed(password: string, username: string, totp: string, hasTotp: bool)
    ensures
      var values := CredentialValues(password, username, totp, hasTotp);
      Replaceable(values) && PrefixFree(values) && Braced(values)
  {
    assert SECRET[2] == 's' && USERNAME[2] == 'u' && TOTP[2] == 't';
  }

  // How long the rendered value can get.

  /** Occurrences of "{{" counted from the left without overlap. */
  function CountOpen(s: string): nat {
    if |s| < 2 then 0
    else if s[0] == '{' && s[1] == '{' then 1 + CountOpen(s[2..])
    else CountOpen(s[1..])
  }

  lemma {:induction false} CountDropOne(s: string)
    requires s != ""
    ensures CountOpen(s[1..]) <= CountOpen(s) <= CountOpen(s[1..]) + 1
  {
    if |s| >= 2 && s[0] == '{' && s[1] == '{' {
      CountDropOne(s[1..]);
      assert s[1..][1..] == s[2..];
    }
  }

  lemma {:induction false} CountDrop(s: string, k: nat)
    requires k <= |s|
    ensures CountOpen(s[k..]) <= CountOpen(s)
  {
    if k > 0 {
      CountDrop(s, k - 1);
      CountDropOne(s[k - 1..]);
      assert s[k - 1..][1..] == s[k..];
    } else {
      assert s[0..] == s;
    }
  }

  predicate OpensAt(s: string, at: nat) {
    at + 1 < |s| && s[at] == '{' && s[at + 1] == '{'
  }

  /** Counting from the left finds as many occurrences as any choice that does not overlap. */
  lemma {:induction false} GreedyCountIsMaximal(s: string, from: nat, places: seq<nat>)
    requires from <= |s| && (forall i :: 0 <= i < |places| ==> from <= places[i] && OpensAt(s, places[i]))
    requires forall i, j :: 0 <= i < j < |places| ==> places[i] + 2 <= places[j]
    ensures |places| <= CountOpen(s[from..])
    decreases |places|
  {
    if places != [] {
      var at := places[0];
      GreedyCountIsMaximal(s, at + 2, places[1..]);
      assert s[at..][2..] == s[at + 2..];
      assert CountOpen(s[at..]) == 1 + CountOpen(s[at + 2..]);
      CountDrop(s[from..], at - from);
      assert s[from..][at - from..] == s[at..];
    }
  }

  /** … and that many are there. */
  lemma {:induction false} CountIsAttained(s: string, from: nat) returns (places: seq<nat>)
    requires from <= |s|
    ensures |places| == CountOpen(s[from..])
    ensures forall i :: 0 <= i < |places| ==> from <= places[i] && OpensAt(s, places[i])
    ensures forall i, j :: 0 <= i < j < |places| ==> places[i] + 2 <= places[j]
    decreases |s| - from
  {
    places := [];
    if OpensAt(s, from) {
      var rest := CountIsAttained(s, from + 2);
      assert s[from..][2..] == s[from + 2..];
      places := [from] + rest;
    } else if from + 1 < |s| {
      places := CountIsAttained(s, from + 1);
      assert s[from..][1..] == s[from + 1..];
    }
  }

  lemma {:induction false} HolesCounted(pieces: seq<Piece>, template: string, values: seq<Value>)
    requires IsParse(pieces, template, values) && Braced(values)
    ensures Holes(pieces) <= CountOpen(template)
    decreases |pieces|
  {
    if pieces != [] {
      match pieces[0]
      case Literal(_) =>
        HolesCounted(pieces[1..], template[1..], values);
        CountDropOne(template);
      case Hole(v) =>
        var n := |v.placeholder|;
        HolesCounted(pieces[1..], template[n..], values);
        assert "{{" <= v.placeholder;
        assert v.placeholder[0] == "{{"[0] && v.placeholder[1] == "{{"[1];
        CountDrop(template[2..], n - 2);
        assert template[2..][n - 2..] == template[n..];
    }
  }

  lemma {:induction false} ByteLengthAppend(s: string, t: string)
    ensures ByteLength(s + t) == ByteLength(s) + ByteLength(t)
  {
    if s == "" {
      assert s + t == t;
    } else {
      ByteLengthAppend(s[1..], t);
      assert (s + t)[1..] == s[1..] + t;
    }
  }

  /** The byte length of the longest text, 0 for no entries. */
  function Longest(values: seq<Value>): nat {
    if values == [] then 0
    else
      var rest, last := Longest(values[..|values| - 1]), ByteLength(values[|values| - 1].text);
      if last >= rest then last else rest
  }

  lemma {:induction false} NoneLonger(values: seq<Value>)
    ensures NoLongerThan(values, Longest(values))
    ensures values != [] ==> exists v :: v in values && ByteLength(v.text) == Longest(values)
  {
    if values != [] {
      NoneLonger(values[..|values| - 1]);
      assert values[|values| - 1] in values;
      assert values == values[..|values| - 1] + [values[|values| - 1]];
    }
  }

  predicate NoLongerThan(values: seq<Value>, longest: nat) {
    forall v | v in values :: ByteLength(v.text) <= longest
  }

  function Room(n: nat, longest: nat): nat {
    n * longest
  }

  lemma RoomIs(n: nat, longest: nat)
    ensures Room(n, longest) == n * longest
  {
  }

  lemma RoomForOneMore(n: nat, longest: nat)
    ensures Room(n + 1, longest) == Room(n, longest) + longest
  {
  }

  lemma RoomMonotone(m: nat, n: nat, longest: nat)
    requires m <= n
    ensures Room(m, longest) <= Room(n, longest)
  {
    assert Room(n, longest) == Room(m, longest) + (n - m) * longest;
  }

  lemma {:induction false} FillBounded(pieces: seq<Piece>, template: string, values: seq<Value>, longest: nat)
    requires IsParse(pieces, template, values) && NoLongerThan(values, longest)
    ensures ByteLength(Fill(pieces)) <= ByteLength(template) + Room(Holes(pieces), longest)
    decreases |pieces|
  {
    if pieces != [] {
      var width := if pieces[0].Literal? then 1 else |pieces[0].value.placeholder|;
      var front, rest := template[..width], template[width..];
      assert IsParse(pieces[1..], rest, values) && template == front + rest;
      assert pieces[0].Literal? ==> front == Text(pieces[0]);
      FillCons(pieces);
      hide Room, ByteLength, IsParse, Fill;
      FillBounded(pieces[1..], rest, values, longest);
      ByteLengthAppend(front, rest);
      ByteLengthAppend(Text(pieces[0]), Fill(pieces[1..]));
      RoomForOneMore(Holes(pieces[1..]), longest);
    }
  }

  /** The reserved capacity is enough: nothing is reallocated while a secret is being written. */
  lemma CapacitySuffices(template: string, values: seq<Value>, longest: nat)
    requires Replaceable(values) && Braced(values) && NoLongerThan(values, longest)
    ensures ByteLength(Fill(Parse(template, values))) <= ByteLength(template) + Room(CountOpen(template), longest)
  {
    hide Room;
    var pieces := Parse(template, values);
    ParseIsParse(template, values);
    HolesCounted(pieces, template, values);
    FillBounded(pieces, template, values, longest);
    RoomMonotone(Holes(pieces), CountOpen(template), longest);
  }

  // The loops.

  method LongestText(values: seq<Value>) returns (longest: nat)
    ensures longest == Longest(values)
    ensures forall v | v in values :: ByteLength(v.text) <= longest
    ensures if values == [] then longest == 0 else exists v :: v in values && ByteLength(v.text) == longest
  {
    longest := 0;
    for i := 0 to |values|
      invariant longest == Longest(values[..i])
    {
      var n := ByteLength(values[i].text);
      assert values[..i + 1][..i] == values[..i];
      if n >= longest {
        longest := n;
      }
    }
    assert values[..|values|] == values;
    NoneLonger(values);
  }

  method CountMatches(template: string) returns (n: nat)
    ensures n == CountOpen(template)
  {
    n := 0;
    var at := 0;
    while at + 1 < |template|
      invariant 0 <= at <= |template|
      invariant n + CountOpen(template[at..]) == CountOpen(template)
    {
      if template[at] == '{' && template[at + 1] == '{' {
        assert template[at..][2..] == template[at + 2..];
        n, at := n + 1, at + 2;
      } else {
        assert template[at..][1..] == template[at + 1..];
        at := at + 1;
      }
    }
  }

  method FindEntry(values: seq<Value>, rest: string) returns (n: nat)
    ensures n == FirstMatch(values, rest)
  {
    n := 0;
    while n < |values| && !(values[n].placeholder <= rest)
      invariant n <= |values| && n + FirstMatch(values[n..], rest) == FirstMatch(values, rest)
    {
      assert values[n..][1..] == values[n + 1..];
      n := n + 1;
    }
  }

  lemma ScansSnoc(pieces: seq<Piece>, p: Piece)
    ensures Scans(pieces + [p]) <==> Scans(pieces) || (p.Hole? && p.value.scanned)
  {
    var all := pieces + [p];
    if Scans(pieces) {
      var i :| 0 <= i < |pieces| && pieces[i].Hole? && pieces[i].value.scanned;
      assert all[i].Hole? && all[i].value.scanned;
    }
    if p.Hole? && p.value.scanned {
      assert all[|pieces|].Hole? && all[|pieces|].value.scanned;
    }
  }

  lemma FillCons(pieces: seq<Piece>)
    requires pieces != []
    ensures Fill(pieces) == Text(pieces[0]) + Fill(pieces[1..])
  {
  }

  lemma {:induction false} FillSnoc(pieces: seq<Piece>, p: Piece)
    ensures Fill(pieces + [p]) == Fill(pieces) + Text(p)
  {
    hide Fill, Text;
    FillCons(pieces + [p]);
    if pieces == [] {
      assert pieces + [p] == [p] && [p][1..] == [];
      FillNothing();
    } else {
      FillSnoc(pieces[1..], p);
      FillCons(pieces);
      assert (pieces + [p])[1..] == pieces[1..] + [p];
      assert (Text(pieces[0]) + Fill(pieces[1..])) + Text(p) == Text(pieces[0]) + (Fill(pieces[1..]) + Text(p));
    }
  }

  lemma FillNothing()
    ensures Fill([]) == ""
  {
  }

  /** One pass over the template; what was substituted is never looked at again. */
  method Substitute(template: string, values: seq<Value>) returns (rendered: string, scanned: bool)
    requires Replaceable(values)
    ensures rendered == Fill(Parse(template, values))
    ensures scanned == Scans(Parse(template, values))
  {
    hide Parse, Fill, Scans, FirstMatch, Replaceable;
    rendered, scanned := "", false;
    var rest := template;
    ghost var done: seq<Piece> := [];
    NothingDone(template, values);
    while rest != ""
      invariant DoneSoFar(template, values, done, rest, rendered, scanned)
      decreases |rest|
    {
      var n := FindEntry(values, rest);
      ghost var piece := if n < |values| then Hole(values[n]) else Literal(rest[0]);
      MoreDone(template, values, done, rest, rendered, scanned);
      if n < |values| {
        rendered := rendered + values[n].text;
        scanned := scanned || values[n].scanned;
        rest := rest[|values[n].placeholder|..];
      } else {
        rendered := rendered + [rest[0]];
        rest := rest[1..];
      }
      done := done + [piece];
    }
    AllDone(template, values, done, rendered, scanned);
  }

  predicate DoneSoFar(template: string, values: seq<Value>, done: seq<Piece>, rest: string, rendered: string,
                      scanned: bool)
    requires Replaceable(values)
  {
    done + Parse(rest, values) == Parse(template, values) && rendered == Fill(done) && scanned == Scans(done)
  }

  lemma NothingDone(template: string, values: seq<Value>)
    requires Replaceable(values)
    ensures DoneSoFar(template, values, [], template, "", false)
  {
    assert [] + Parse(template, values) == Parse(template, values);
  }

  lemma AllDone(template: string, values: seq<Value>, done: seq<Piece>, rendered: string, scanned: bool)
    requires Replaceable(values) && DoneSoFar(template, values, done, "", rendered, scanned)
    ensures rendered == Fill(Parse(template, values)) && scanned == Scans(Parse(template, values))
  {
    assert done + [] == done;
  }

  lemma MoreDone(template: string, values: seq<Value>, done: seq<Piece>, rest: string, rendered: string, scanned: bool)
    requires Replaceable(values) && rest != "" && DoneSoFar(template, values, done, rest, rendered, scanned)
    ensures
      var n := FirstMatch(values, rest);
      if n < |values| then
        && 0 < |values[n].placeholder| <= |rest|
        && DoneSoFar(template, values, done + [Hole(values[n])], rest[|values[n].placeholder|..],
                     rendered + values[n].text, scanned || values[n].scanned)
      else DoneSoFar(template, values, done + [Literal(rest[0])], rest[1..], rendered + [rest[0]], scanned)
  {
    hide Parse, Fill, Scans, FirstMatch, Replaceable;
    ParseStep(rest, values);
    var n := FirstMatch(values, rest);
    if n < |values| {
      PieceDone(done, Hole(values[n]), Parse(rest[|values[n].placeholder|..], values));
    } else {
      PieceDone(done, Literal(rest[0]), Parse(rest[1..], values));
    }
  }

  lemma ParseStep(rest: string, values: seq<Value>)
    requires Replaceable(values) && rest != ""
    ensures
      var n := FirstMatch(values, rest);
      if n < |values| then
        && 0 < |values[n].placeholder| <= |rest|
        && Parse(rest, values) == [Hole(values[n])] + Parse(rest[|values[n].placeholder|..], values)
      else Parse(rest, values) == [Literal(rest[0])] + Parse(rest[1..], values)
  {
  }

  lemma PieceDone(done: seq<Piece>, piece: Piece, todo: seq<Piece>)
    ensures done + ([piece] + todo) == (done + [piece]) + todo
    ensures Fill(done + [piece]) == Fill(done) + Text(piece)
    ensures Scans(done + [piece]) <==> Scans(done) || (piece.Hole? && piece.value.scanned)
  {
    FillSnoc(done, piece);
    ScansSnoc(done, piece);
  }

  method Render(template: string, values: seq<Value>) returns (rendered: string, scanned: bool, capacity: nat)
    requires Replaceable(values) && Braced(values)
    ensures rendered == Fill(Parse(template, values))
    ensures scanned == Scans(Parse(template, values))
    ensures capacity == ByteLength(template) + CountOpen(template) * Longest(values)
    ensures ByteLength(rendered) <= capacity
  {
    var longest := LongestText(values);
    var occurrences := CountMatches(template);
    hide Room, ByteLength, CountOpen, Parse, Fill;
    capacity := ByteLength(template) + Room(occurrences, longest);
    rendered, scanned := Substitute(template, values);
    CapacitySuffices(template, values, longest);
    RoomIs(occurrences, longest);
  }

  /** The rendering of a credential's values: the one parse of the template, filled in, whatever order the list has. */
  lemma RenderingIsTheParse(template: string, pieces: seq<Piece>, password: string, username: string, totp: string,
                            hasTotp: bool, listed: seq<Value>)
    requires IsParse(pieces, template, CredentialValues(password, username, totp, hasTotp))
    requires forall v :: v in listed <==> v in CredentialValues(password, username, totp, hasTotp)
    ensures Replaceable(listed) && Parse(template, listed) == pieces
  {
    var values := CredentialValues(password, username, totp, hasTotp);
    CredentialValuesWellFormed(password, username, totp, hasTotp);
    ParseIsParse(template, values);
    ParseUnique(pieces, Parse(template, values), template, values);
    OrderIndependent(template, values, listed);
  }

  lemma AfterPlaceholder(values: seq<Value>, n: nat, rest: string)
    requires Replaceable(values) && PrefixFree(values) && n < |values|
    ensures
      var v, template := values[n], values[n].placeholder + rest;
      && Fill(Parse(template, values)) == v.text + Fill(Parse(rest, values))
      && (Scans(Parse(template, values)) <==> v.scanned || Scans(Parse(rest, values)))
  {
    var v, template := values[n], values[n].placeholder + rest;
    var k := FirstMatch(values, template);
    assert Matches(v, template);
    assert k <= n;
    SameMatch(v, values[k], template, values);
    hide Fill, Scans;
    ParseStep(template, values);
    assert template[|v.placeholder|..] == rest;
    ConsMeans(Hole(v), Parse(rest, values));
  }

  lemma ConsMeans(p: Piece, pieces: seq<Piece>)
    ensures Fill([p] + pieces) == Text(p) + Fill(pieces)
    ensures Scans([p] + pieces) <==> (p.Hole? && p.value.scanned) || Scans(pieces)
  {
    var all := [p] + pieces;
    assert all[1..] == pieces;
    if Scans(pieces) {
      var i :| 0 <= i < |pieces| && pieces[i].Hole? && pieces[i].value.scanned;
      assert all[i + 1] == pieces[i];
    }
    if p.Hole? && p.value.scanned {
      assert all[0] == p;
    }
  }

  /** A credential's texts, with what a template is rendered to from them and whether the result is scanned for. */
  datatype Credential = Credential(password: string, username: string, totp: string, hasTotp: bool) {
    function Values(): seq<Value> {
      CredentialValues(password, username, totp, hasTotp)
    }

    lemma WellFormed()
      ensures Replaceable(Values()) && PrefixFree(Values())
    {
      CredentialValuesWellFormed(password, username, totp, hasTotp);
    }

    function Rendered(template: string): string {
      WellFormed();
      Fill(Parse(template, Values()))
    }

    predicate Scanned(template: string) {
      WellFormed();
      Scans(Parse(template, Values()))
    }
  }

  /**
   * Rendering by its first placeholder or character: {{secret}} gives the password and {{totp}} the code,
   * and a value that holds either is scanned for; {{username}} gives the user name, which is not.
   */
  lemma RenderingRules(rest: string, c: Credential)
    ensures
      var secret, username, totp := "{{secret}}" + rest, "{{username}}" + rest, "{{totp}}" + rest;
      && c.Rendered(secret) == c.password + c.Rendered(rest) && c.Scanned(secret)
      && c.Rendered(username) == c.username + c.Rendered(rest) && c.Scanned(username) == c.Scanned(rest)
      && (c.hasTotp ==> c.Rendered(totp) == c.totp + c.Rendered(rest) && c.Scanned(totp))
  {
    hide Parse, Fill, Scans, Replaceable, PrefixFree;
    c.WellFormed();
    AfterPlaceholder(c.Values(), 0, rest);
    AfterPlaceholder(c.Values(), 1, rest);
    if c.hasTotp {
      AfterPlaceholder(c.Values(), 2, rest);
    }
  }

  /** Any other character stands for itself, {{totp}} included when no code was asked for. */
  lemma RenderingOfOthers(template: string, c: Credential)
    requires !("{{secret}}" <= template) && !("{{username}}" <= template) && !(c.hasTotp && "{{totp}}" <= template)
    ensures
      if template == "" then c.Rendered(template) == "" && !c.Scanned(template)
      else
        && c.Rendered(template) == [template[0]] + c.Rendered(template[1..])
        && c.Scanned(template) == c.Scanned(template[1..])
  {
    c.WellFormed();
    var values := c.Values();
    if template != "" {
      ParseStep(template, values);
      ConsMeans(Literal(template[0]), Parse(template[1..], values));
    }
  }
}
