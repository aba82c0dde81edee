/** What in a C# expression visibly changes the program
    (drivers/dotnet/sideeffects.go): a one-pass scan that keeps small summaries,
    against a judgement on the list of tokens. Text is bytes, one char a byte. */
module SideEffects {
  import opened Wrappers

  datatype Kind = Word | Interpolated | Step | Plain

  /** A token; the text of a string, character, number or operator only says
      which it is. */
  datatype Tok = Tok(kind: Kind, text: string, start: nat, end: nat)

  datatype Reason = CreatesObject | Assigns | Increments | Interpolates | Calls(name: string)

  // ------------------------------------------------------------------ lexing

  predicate IsIdentStart(c: char) { c == '_' || 'a' <= c <= 'z' || 'A' <= c <= 'Z' || c >= '\U{80}' }

  predicate IsIdentPart(c: char) { IsIdentStart(c) || '0' <= c <= '9' }

  predicate IsSpace(c: char) { c == ' ' || c == '\t' || c == '\r' || c == '\n' }

  /** The character after i (zero at the end). */
  function After(src: string, i: nat): char { if i + 1 < |src| then src[i + 1] else '\0' }

  function CommentEnd(src: string, i: nat): (end: nat)
    requires i <= |src|
    ensures i <= end <= |src|
    decreases |src| - i
  {
    if i + 1 >= |src| then |src| else if src[i] == '*' && src[i + 1] == '/' then i + 2 else CommentEnd(src, i + 1)
  }

  /** Where the whitespace character or comment at i ends; i when none is there. */
  function SkipEnd(src: string, i: nat): (end: nat)
    requires i < |src|
    ensures i <= end <= |src|
  {
    if IsSpace(src[i]) then i + 1
    else if src[i] == '/' && After(src, i) == '/' then |src|
    else if src[i] == '/' && After(src, i) == '*' then CommentEnd(src, i + 2)
    else i
  }

  function StringEnd(src: string, i: nat, verbatim: bool): (end: nat)
    ensures end <= |src| && (i <= |src| ==> i <= end)
    decreases |src| - i
  {
    if i >= |src| then |src|
    else if verbatim && src[i] == '"' && After(src, i) == '"' then StringEnd(src, i + 2, verbatim)
    else if !verbatim && src[i] == '\\' then StringEnd(src, i + 2, verbatim)
    else if src[i] == '"' then i + 1
    else StringEnd(src, i + 1, verbatim)
  }

  function CharEnd(src: string, i: nat): (end: nat)
    ensures end <= |src| && (i <= |src| ==> i <= end)
    decreases |src| - i
  {
    if i >= |src| then |src|
    else if src[i] == '\'' then i + 1
    else CharEnd(src, if src[i] == '\\' then i + 2 else i + 1)
  }

  function WordEnd(src: string, i: nat): (end: nat)
    requires i <= |src|
    ensures i <= end <= |src|
    decreases |src| - i
  {
    if i < |src| && IsIdentPart(src[i]) then WordEnd(src, i + 1) else i
  }

  function NumberEnd(src: string, i: nat): (end: nat)
    requires i <= |src|
    ensures i <= end <= |src|
    decreases |src| - i
  {
    if i < |src| && (IsIdentPart(src[i]) || src[i] == '.') then NumberEnd(src, i + 1) else i
  }

  /** The token that starts at i. */
  function TokenAt(src: string, i: nat): (t: Tok)
    requires i < |src|
    ensures t.start == i < t.end <= |src| && t.text != ""
  {
    var c, n := src[i], After(src, i);
    if (c == '$' && (n == '"' || n == '@')) || (c == '@' && n == '$') then Tok(Interpolated, [c], i, i + 1)
    else if c == '"' then Tok(Plain, "\"", i, StringEnd(src, i + 1, false))
    else if c == '@' && n == '"' then Tok(Plain, "\"", i, StringEnd(src, i + 2, true))
    else if c == '\'' then Tok(Plain, "'", i, CharEnd(src, i + 1))
    else if IsIdentStart(c) || ((c == '$' || c == '@') && IsIdentStart(n)) then
      Tok(Word, src[i..WordEnd(src, i + 1)], i, WordEnd(src, i + 1))
    else if '0' <= c <= '9' then Tok(Plain, "0", i, NumberEnd(src, i + 1))
    else if (c == '+' || c == '-') && n == c then Tok(Step, [c], i, i + 2)
    else if c == '=' && (n == '=' || n == '>') then Tok(Plain, "=", i, i + 2)
    else Tok(Plain, [c], i, i + 1)
  }

  /** The tokens from i on, whitespace and comments left out. */
  function Tokens(src: string, i: nat): (ts: seq<Tok>)
    requires i <= |src|
    decreases |src| - i
  {
    if i == |src| then []
    else if SkipEnd(src, i) > i then Tokens(src, SkipEnd(src, i))
    else [TokenAt(src, i)] + Tokens(src, TokenAt(src, i).end)
  }

  // --------------------------------------------------------------- judgement

  predicate Is(t: Tok, text: string) { t.kind == Plain && t.text == text }

  /** Part of a dotted name. */
  predicate IsName(t: Tok) { t.kind == Word || Is(t, ".") }

  /** What the scan takes for an identifier (a lone $ or @ too). */
  predicate IsIdent(text: string) { text != "" && (IsIdentStart(text[0]) || text[0] == '$' || text[0] == '@') }

  predicate NotCall(word: string) {
    word in {"typeof", "sizeof", "default", "nameof", "checked", "unchecked", "is", "and", "or", "not"}
  }

  /** Opening less closing parentheses among the tokens between a and b. */
  function Excess(ts: seq<Tok>, a: nat, b: nat): int
    requires b <= |ts|
  {
    if b <= a + 1 then 0
    else Excess(ts, a, b - 1) + (if Is(ts[b - 1], "(") then 1 else if Is(ts[b - 1], ")") then -1 else 0)
  }

  ghost predicate NeverBelow(ts: seq<Tok>, i: nat, j: nat) requires j <= |ts| {
    forall m | i < m <= j :: Excess(ts, i, m) >= 0
  }

  /** The parenthesis at j closes the one at i, by bracket counting. */
  ghost predicate Matches(ts: seq<Tok>, i: nat, j: nat) {
    i < j < |ts| && Is(ts[i], "(") && Is(ts[j], ")") && Excess(ts, i, j) == 0 && NeverBelow(ts, i, j)
  }

  ghost predicate OnlyNames(ts: seq<Tok>, i: nat, j: nat) requires j <= |ts| { forall m | i < m < j :: IsName(ts[m]) }

  /** The parenthesis at j ends a cast: it encloses a dotted name alone. */
  ghost predicate ClosesCast(ts: seq<Tok>, j: nat) requires j < |ts| {
    exists i: nat :: Matches(ts, i, j) && i + 1 < j && OnlyNames(ts, i, j)
  }

  /** A "<" directly after an identifier, no operator. */
  predicate OpensGeneric(src: string, ts: seq<Tok>, k: nat) requires k < |ts| {
    && k > 0 && Is(ts[k], "<") && ts[k - 1].end == ts[k].start && IsIdent(ts[k - 1].text)
    && After(src, ts[k].start) != '=' && After(src, ts[k].start) != '<'
  }

  /** The identifiers before the generic "<" that are open after the tokens. */
  function OpenGenerics(src: string, ts: seq<Tok>): (names: seq<string>)
    ensures forall i | 0 <= i < |names| :: names[i] != ""
  {
    if ts == [] then []
    else
      var k := |ts| - 1;
      var before := OpenGenerics(src, ts[..k]);
      if OpensGeneric(src, ts, k) then before + [ts[k - 1].text]
      else if ClosesGeneric(src, ts[k], before) then before[..|before| - 1]
      else before
  }

  predicate ClosesGeneric(src: string, t: Tok, open: seq<string>) {
    Is(t, ">") && open != [] && After(src, t.start) != '='
  }

  /** The identifier whose generic arguments the token at k ends; "" when it ends
      none. */
  function EndsGeneric(src: string, ts: seq<Tok>, k: nat): string requires k < |ts| {
    var open := OpenGenerics(src, ts[..k]);
    if ClosesGeneric(src, ts[k], open) then open[|open| - 1] else ""
  }

  function Trimmed(name: string): string {
    if name != "" && (name[0] == '@' || name[0] == '$') then Trimmed(name[1..]) else name
  }

  /** What the "(" at k calls: a name, "" when it has none, or nothing. */
  ghost function Callee(src: string, ts: seq<Tok>, k: nat): Option<string> requires k < |ts| {
    if k == 0 then None
    else
      var p := ts[k - 1];
      if IsIdent(p.text) && !NotCall(p.text) then Some(Trimmed(p.text))
      else if p.end != ts[k].start then None
      else if (p.text == ")" && !ClosesCast(ts, k - 1)) || p.text == "]" then Some("")
      else if p.text == ">" && EndsGeneric(src, ts, k - 1) != "" then Some(Trimmed(EndsGeneric(src, ts, k - 1)))
      else None
  }

  /** A lone "=" that is not part of !=, <= or >=. */
  predicate IsAssignment(src: string, t: Tok) requires t.start < |src| {
    var before := if t.start > 0 then src[t.start - 1] else '\0';
    var before2 := if t.start > 1 then src[t.start - 2] else '\0';
    Is(t, "=") && t.end == t.start + 1 && !(before == '!' || ((before == '<' || before == '>') && before2 != before))
  }

  ghost predicate Placed(src: string, ts: seq<Tok>) { forall t | t in ts :: t.start < t.end <= |src| && t.text != "" }

  /** What the token at k shows. */
  ghost function Finding(src: string, ts: seq<Tok>, k: nat): Option<Reason> requires k < |ts| && Placed(src, ts) {
    var t := ts[k];
    assert t in ts;
    if t.kind == Interpolated then Some(Interpolates)
    else if t.kind == Step then Some(Increments)
    else if t.kind == Word && t.text == "new" then Some(CreatesObject)
    else if IsAssignment(src, t) then Some(Assigns)
    else if Is(t, "(") && Callee(src, ts, k).Some? then Some(Calls(Callee(src, ts, k).value))
    else None
  }

  ghost predicate Clean(src: string, ts: seq<Tok>) {
    Placed(src, ts) && forall k | 0 <= k < |ts| :: Finding(src, ts, k) == None
  }

  /** r is the first finding of the tokens. */
  ghost predicate IsFirst(src: string, ts: seq<Tok>, r: Option<Reason>) {
    && Placed(src, ts)
    && (r == None ==> Clean(src, ts))
    && (r != None ==> exists k: nat :: FirstAt(src, ts, k, r))
  }

  ghost predicate FirstAt(src: string, ts: seq<Tok>, k: nat, r: Option<Reason>) requires Placed(src, ts) {
    k < |ts| && Clean(src, ts[..k]) && Finding(src, ts, k) == r
  }

  // --------------------------------------------------------- local judgements

  /** What a token shows depends only on the tokens up to it. */
  lemma {:induction false} ExcessLocal(ts: seq<Tok>, more: seq<Tok>, a: nat, b: nat)
    requires b <= |ts|
    ensures Excess(ts + more, a, b) == Excess(ts, a, b)
    decreases b
  {
    if b > a + 1 { ExcessLocal(ts, more, a, b - 1); }
  }

  lemma ClosesCastLocal(ts: seq<Tok>, more: seq<Tok>, j: nat)
    requires j < |ts|
    ensures ClosesCast(ts + more, j) <==> ClosesCast(ts, j)
  {
    var us := ts + more;
    forall i: nat | i < j ensures Matches(us, i, j) <==> Matches(ts, i, j) {
      ExcessLocal(ts, more, i, j);
      forall m | i < m <= j ensures Excess(us, i, m) == Excess(ts, i, m) { ExcessLocal(ts, more, i, m); }
    }
    if ClosesCast(us, j) {
      var i: nat :| Matches(us, i, j) && i + 1 < j && OnlyNames(us, i, j);
      forall m | i < m < j ensures IsName(ts[m]) { assert IsName(us[m]); }
      assert Matches(ts, i, j) && OnlyNames(ts, i, j);
    }
    if ClosesCast(ts, j) {
      var i: nat :| Matches(ts, i, j) && i + 1 < j && OnlyNames(ts, i, j);
      forall m | i < m < j ensures IsName(us[m]) { assert IsName(ts[m]); }
      assert Matches(us, i, j) && OnlyNames(us, i, j);
    }
  }

  lemma FindingLocal(src: string, ts: seq<Tok>, more: seq<Tok>, k: nat)
    requires k < |ts| && Placed(src, ts) && Placed(src, ts + more)
    ensures Finding(src, ts + more, k) == Finding(src, ts, k)
  {
    if k > 0 {
      ClosesCastLocal(ts, more, k - 1);
      assert (ts + more)[..k - 1] == ts[..k - 1];
    }
  }

  // ------------------------------------------------- the scan's paren summary

  /** An open parenthesis: name while it holds only identifiers and dots, empty
      while it holds nothing. */
  datatype Paren = Paren(name: bool, empty: bool)

  /** A token comes inside the innermost open parenthesis. */
  function Content(parens: seq<Paren>, partOfName: bool): seq<Paren> {
    if parens == [] then []
    else
      var n := |parens| - 1;
      parens[n := Paren(parens[n].name && partOfName, false)]
  }

  /** The positions of the parentheses that are open after the tokens. */
  ghost predicate Opens(ts: seq<Tok>, opens: seq<nat>) {
    && (forall q | 0 <= q < |opens| :: opens[q] < |ts| && Is(ts[opens[q]], "(") && NeverBelow(ts, opens[q], |ts|))
    && (forall q | 0 <= q < |opens| :: Excess(ts, opens[q], |ts|) == |opens| - 1 - q)
    && (forall q, p | 0 <= q < p < |opens| :: opens[q] < opens[p])
    && (forall i: nat | i < |ts| && Is(ts[i], "(") && NeverBelow(ts, i, |ts|) :: i in opens)
  }

  ghost predicate Sums(ts: seq<Tok>, opens: seq<nat>, parens: seq<Paren>) {
    && Opens(ts, opens) && |parens| == |opens|
    && forall q | 0 <= q < |parens| :: SumsUp(ts, opens[q], parens[q])
  }

  ghost predicate SumsUp(ts: seq<Tok>, open: nat, p: Paren) {
    (p.name <==> OnlyNames(ts, open, |ts|)) && (p.empty <==> open + 1 == |ts|)
  }

  /** One more token in a parenthesis. */
  lemma InnerSums(ts: seq<Tok>, open: nat, p: Paren, t: Tok)
    requires open < |ts| && SumsUp(ts, open, p)
    ensures SumsUp(ts + [t], open, Paren(p.name && IsName(t), false))
  {
    NamesStep(ts, t, open);
  }

  /** What holds another parenthesis stays as it is. */
  lemma OuterSums(ts: seq<Tok>, opens: seq<nat>, q: nat, p: Paren, t: Tok)
    requires Opens(ts, opens) && q + 1 < |opens| && SumsUp(ts, opens[q], p)
    ensures SumsUp(ts + [t], opens[q], p)
  {
    NamesStep(ts, t, opens[q]);
    OuterHoldsMore(ts, opens, q);
  }

  lemma ExcessStep(ts: seq<Tok>, t: Tok, i: nat)
    requires i < |ts|
    ensures Excess(ts + [t], i, |ts| + 1) == Excess(ts, i, |ts|) + (if Is(t, "(") then 1 else if Is(t, ")") then -1 else 0)
    ensures NeverBelow(ts + [t], i, |ts| + 1) <==> NeverBelow(ts, i, |ts|) && Excess(ts + [t], i, |ts| + 1) >= 0
  {
    var more := ts + [t];
    forall m: nat | m <= |ts| ensures Excess(more, i, m) == Excess(ts, i, m) { ExcessLocal(ts, [t], i, m); }
    assert more[|ts|] == t;
    if NeverBelow(more, i, |ts| + 1) {
      forall m | i < m <= |ts| ensures Excess(ts, i, m) >= 0 { assert Excess(more, i, m) >= 0; }
    }
    if NeverBelow(ts, i, |ts|) && Excess(more, i, |ts| + 1) >= 0 {
      forall m | i < m <= |ts| + 1 ensures Excess(more, i, m) >= 0 {
        if m <= |ts| { assert Excess(ts, i, m) >= 0; }
      }
    }
  }

  lemma NamesStep(ts: seq<Tok>, t: Tok, i: nat)
    requires i < |ts|
    ensures OnlyNames(ts + [t], i, |ts| + 1) <==> OnlyNames(ts, i, |ts|) && IsName(t)
  {
    var more := ts + [t];
    if OnlyNames(more, i, |ts| + 1) {
      assert IsName(more[|ts|]);
      forall m | i < m < |ts| ensures IsName(ts[m]) { assert IsName(more[m]); }
    }
  }

  /** A parenthesis inside another one is no name. */
  lemma OuterHoldsMore(ts: seq<Tok>, opens: seq<nat>, q: nat)
    requires Opens(ts, opens) && q + 1 < |opens|
    ensures !OnlyNames(ts, opens[q], |ts|) && opens[q] + 1 < |ts|
  {
    assert !IsName(ts[opens[q + 1]]);
  }

  lemma OpensStay(ts: seq<Tok>, opens: seq<nat>, t: Tok)
    requires Opens(ts, opens) && !Is(t, "(") && !(Is(t, ")") && opens != [])
    ensures Opens(ts + [t], opens)
  {
    var more := ts + [t];
    forall q | 0 <= q < |opens| ensures Excess(more, opens[q], |more|) == |opens| - 1 - q && NeverBelow(more, opens[q], |more|) {
      ExcessStep(ts, t, opens[q]);
      assert Excess(ts, opens[q], |ts|) == |opens| - 1 - q;
    }
    forall i: nat | i < |more| && Is(more[i], "(") && NeverBelow(more, i, |more|) ensures i in opens {
      assert i < |ts|;
      ExcessStep(ts, t, i);
    }
  }

  lemma PlainStep(ts: seq<Tok>, opens: seq<nat>, parens: seq<Paren>, t: Tok)
    requires Sums(ts, opens, parens) && !Is(t, "(") && !(Is(t, ")") && opens != [])
    ensures Sums(ts + [t], opens, Content(parens, IsName(t)))
  {
    OpensStay(ts, opens, t);
    assert |Content(parens, IsName(t))| == |opens|;
    forall q | 0 <= q < |opens| ensures SumsUp(ts + [t], opens[q], Content(parens, IsName(t))[q]) { ContentSums(ts, opens, parens, t, q); }
  }

  lemma ContentSums(ts: seq<Tok>, opens: seq<nat>, parens: seq<Paren>, t: Tok, q: nat)
    requires Sums(ts, opens, parens) && q < |opens|
    ensures SumsUp(ts + [t], opens[q], Content(parens, IsName(t))[q])
  {
    if q + 1 < |opens| { OuterSums(ts, opens, q, parens[q], t); } else { InnerSums(ts, opens[q], parens[q], t); }
  }

  lemma OpensPush(ts: seq<Tok>, opens: seq<nat>, t: Tok)
    requires Opens(ts, opens) && Is(t, "(")
    ensures Opens(ts + [t], opens + [|ts|])
  {
    var more, opens' := ts + [t], opens + [|ts|];
    forall i: nat | i < |more| && Is(more[i], "(") && NeverBelow(more, i, |more|) ensures i in opens' {
      if i < |ts| {
        ExcessStep(ts, t, i);
        assert i in opens;
      } else {
        assert opens'[|opens|] == i;
      }
    }
    forall q | 0 <= q < |opens'|
      ensures Excess(more, opens'[q], |more|) == |opens'| - 1 - q && NeverBelow(more, opens'[q], |more|)
    {
      if q < |opens| {
        ExcessStep(ts, t, opens[q]);
        assert Excess(ts, opens[q], |ts|) == |opens| - 1 - q;
      }
    }
  }

  lemma OpenStep(ts: seq<Tok>, opens: seq<nat>, parens: seq<Paren>, t: Tok)
    requires Sums(ts, opens, parens) && Is(t, "(")
    ensures Sums(ts + [t], opens + [|ts|], Content(parens, false) + [Paren(true, true)])
  {
    var c := Content(parens, false);
    OpensPush(ts, opens, t);
    forall q | 0 <= q < |opens| ensures SumsUp(ts + [t], opens[q], c[q]) { ContentSums(ts, opens, parens, t, q); }
    NewSums(ts, t);
    SumsWithNew(ts + [t], opens, c, |ts|);
  }

  lemma NewSums(ts: seq<Tok>, t: Tok)
    ensures SumsUp(ts + [t], |ts|, Paren(true, true))
  {}

  lemma SumsWithNew(ts: seq<Tok>, opens: seq<nat>, parens: seq<Paren>, open: nat)
    requires |parens| == |opens| && Opens(ts, opens + [open]) && SumsUp(ts, open, Paren(true, true))
    requires forall q | 0 <= q < |opens| :: SumsUp(ts, opens[q], parens[q])
    ensures Sums(ts, opens + [open], parens + [Paren(true, true)])
  {
    var more, all := opens + [open], parens + [Paren(true, true)];
    forall q | 0 <= q < |all| ensures SumsUp(ts, more[q], all[q]) {
      if q < |opens| { assert SumsUp(ts, opens[q], parens[q]); }
    }
  }

  /** A closing parenthesis closes the innermost open one, and ends a cast
      exactly when that one held only names, at least one. */
  lemma CloseStep(ts: seq<Tok>, opens: seq<nat>, parens: seq<Paren>, t: Tok)
    requires Sums(ts, opens, parens) && opens != [] && Is(t, ")")
    ensures Sums(ts + [t], opens[..|opens| - 1], parens[..|parens| - 1])
    ensures ClosesCast(ts + [t], |ts|) <==> parens[|parens| - 1].name && !parens[|parens| - 1].empty
  {
    var n := |opens| - 1;
    OpensPop(ts, opens, t);
    forall q | 0 <= q < n ensures SumsUp(ts + [t], opens[q], parens[q]) { OuterSums(ts, opens, q, parens[q], t); }
    CastIsTop(ts, opens, t);
    assert SumsUp(ts, opens[n], parens[n]);
  }

  lemma OpensPop(ts: seq<Tok>, opens: seq<nat>, t: Tok)
    requires Opens(ts, opens) && opens != [] && Is(t, ")")
    ensures Opens(ts + [t], opens[..|opens| - 1])
  {
    var more, n := ts + [t], |opens| - 1;
    forall i: nat | i < |more| && Is(more[i], "(") && NeverBelow(more, i, |more|) ensures i in opens[..n] {
      assert i < |ts|;
      ExcessStep(ts, t, i);
      ExcessStep(ts, t, opens[n]);
      assert i in opens && i != opens[n];
    }
    forall q | 0 <= q < n ensures Excess(more, opens[q], |more|) == n - 1 - q && NeverBelow(more, opens[q], |more|) {
      ExcessStep(ts, t, opens[q]);
      assert Excess(ts, opens[q], |ts|) == |opens| - 1 - q;
    }
  }

  lemma CastIsTop(ts: seq<Tok>, opens: seq<nat>, t: Tok)
    requires Opens(ts, opens) && opens != [] && Is(t, ")")
    ensures var top := opens[|opens| - 1];
      ClosesCast(ts + [t], |ts|) <==> OnlyNames(ts, top, |ts|) && top + 1 < |ts|
  {
    var more, top := ts + [t], opens[|opens| - 1];
    forall i: nat | i < |ts| ensures Matches(more, i, |ts|) <==> Is(ts[i], "(") && Excess(ts, i, |ts|) == 0 && NeverBelow(ts, i, |ts|) {
      ExcessLocal(ts, [t], i, |ts|);
      forall m | i < m <= |ts| ensures Excess(more, i, m) == Excess(ts, i, m) { ExcessLocal(ts, [t], i, m); }
    }
    if ClosesCast(more, |ts|) {
      var i: nat :| Matches(more, i, |ts|) && i + 1 < |ts| && OnlyNames(more, i, |ts|);
      assert i in opens;
      var q :| 0 <= q < |opens| && opens[q] == i;
      assert i == top;
      forall m | i < m < |ts| ensures IsName(ts[m]) { assert IsName(more[m]); }
    }
    if OnlyNames(ts, top, |ts|) && top + 1 < |ts| {
      forall m | top < m < |ts| ensures IsName(more[m]) { assert IsName(ts[m]); }
      assert Matches(more, top, |ts|) && OnlyNames(more, top, |ts|);
    }
  }

  lemma NoCast(ts: seq<Tok>, opens: seq<nat>, t: Tok)
    requires Opens(ts, opens) && (opens == [] || !Is(t, ")"))
    ensures !ClosesCast(ts + [t], |ts|)
  {
    var more := ts + [t];
    if opens == [] {
      forall i: nat ensures !Matches(more, i, |ts|) {
        if i < |ts| {
          ExcessLocal(ts, [t], i, |ts|);
          forall m | i < m <= |ts| ensures Excess(more, i, m) == Excess(ts, i, m) { ExcessLocal(ts, [t], i, m); }
          if Matches(more, i, |ts|) { assert NeverBelow(ts, i, |ts|); }
        }
      }
    }
  }

  /** The positions of the parentheses that are open after the tokens. */
  function OpenParens(ts: seq<Tok>): (opens: seq<nat>)
    ensures forall q | 0 <= q < |opens| :: opens[q] < |ts|
  {
    if ts == [] then []
    else
      var k := |ts| - 1;
      var before := OpenParens(ts[..k]);
      if Is(ts[k], "(") then before + [k]
      else if Is(ts[k], ")") && before != [] then before[..|before| - 1]
      else before
  }

  ghost function ParensOf(ts: seq<Tok>): seq<Paren> {
    var opens := OpenParens(ts);
    seq(|opens|, q requires 0 <= q < |opens| => Paren(OnlyNames(ts, opens[q], |ts|), opens[q] + 1 == |ts|))
  }

  lemma ParensAre(ts: seq<Tok>, parens: seq<Paren>)
    requires Sums(ts, OpenParens(ts), parens)
    ensures parens == ParensOf(ts)
  {}

  lemma {:induction false} ParensSum(ts: seq<Tok>)
    ensures Sums(ts, OpenParens(ts), ParensOf(ts))
  {
    if ts != [] {
      var k := |ts| - 1;
      assert ts[..k] + [ts[k]] == ts;
      ParensSum(ts[..k]);
      var opens, parens := OpenParens(ts[..k]), ParensOf(ts[..k]);
      if Is(ts[k], "(") {
        OpenStep(ts[..k], opens, parens, ts[k]);
        ParensAre(ts, Content(parens, false) + [Paren(true, true)]);
      } else if Is(ts[k], ")") && opens != [] {
        CloseStep(ts[..k], opens, parens, ts[k]);
        ParensAre(ts, parens[..|parens| - 1]);
      } else {
        PlainStep(ts[..k], opens, parens, ts[k]);
        ParensAre(ts, Content(parens, IsName(ts[k])));
      }
    }
  }

  lemma OpensMore(ts: seq<Tok>, t: Tok)
    ensures var before := OpenParens(ts);
      OpenParens(ts + [t]) == if Is(t, "(") then before + [|ts|]
                              else if Is(t, ")") && before != [] then before[..|before| - 1]
                              else before
  {
    assert (ts + [t])[..|ts|] == ts;
  }

  /** One more token: an opening parenthesis, one that closes one, or another. */
  lemma ParensOpen(ts: seq<Tok>, t: Tok)
    requires Is(t, "(")
    ensures ParensOf(ts + [t]) == Content(ParensOf(ts), false) + [Paren(true, true)] && !ClosesCast(ts + [t], |ts|)
  {
    ParensSum(ts);
    OpensMore(ts, t);
    OpenStep(ts, OpenParens(ts), ParensOf(ts), t);
    ParensAre(ts + [t], Content(ParensOf(ts), false) + [Paren(true, true)]);
    NoCast(ts, OpenParens(ts), t);
  }

  lemma ParensClose(ts: seq<Tok>, t: Tok)
    requires Is(t, ")") && ParensOf(ts) != []
    ensures var n := |ParensOf(ts)| - 1;
      && ParensOf(ts + [t]) == ParensOf(ts)[..n]
      && (ClosesCast(ts + [t], |ts|) <==> ParensOf(ts)[n].name && !ParensOf(ts)[n].empty)
  {
    ParensSum(ts);
    OpensMore(ts, t);
    CloseStep(ts, OpenParens(ts), ParensOf(ts), t);
    ParensAre(ts + [t], ParensOf(ts)[..|ParensOf(ts)| - 1]);
  }

  lemma ParensPlain(ts: seq<Tok>, t: Tok)
    requires !Is(t, "(") && !(Is(t, ")") && ParensOf(ts) != [])
    ensures ParensOf(ts + [t]) == Content(ParensOf(ts), IsName(t)) && !ClosesCast(ts + [t], |ts|)
  {
    ParensSum(ts);
    OpensMore(ts, t);
    PlainStep(ts, OpenParens(ts), ParensOf(ts), t);
    ParensAre(ts + [t], Content(ParensOf(ts), IsName(t)));
    NoCast(ts, OpenParens(ts), t);
  }

  // ---------------------------------------------------------------- summaries

  /** What the scan keeps of the tokens so far. */
  datatype Kept = Kept(prev: string, prevEnd: nat, generics: seq<string>, closed: string, parens: seq<Paren>, castClose: bool)

  /** What the judgement asks about the last token. */
  ghost function Judged(src: string, ts: seq<Tok>): Kept {
    if ts == [] then Kept("", 0, [], "", [], false)
    else
      var t := ts[|ts| - 1];
      Kept(t.text, t.end, OpenGenerics(src, ts), EndsGeneric(src, ts, |ts| - 1), ParensOf(ts), ClosesCast(ts, |ts| - 1))
  }

  /** What one more token makes of it. */
  function Keep(src: string, k: Kept, t: Tok): Kept {
    if t.kind != Plain then Kept(t.text, t.end, k.generics, "", Content(k.parens, t.kind == Word), false)
    else if t.text == "(" then Kept("(", t.end, k.generics, "", Content(k.parens, false) + [Paren(true, true)], false)
    else if t.text == ")" && k.parens != [] then
      var n := |k.parens| - 1;
      Kept(")", t.end, k.generics, "", k.parens[..n], k.parens[n].name && !k.parens[n].empty)
    else if t.text == "<" && k.prevEnd == t.start && IsIdent(k.prev) && After(src, t.start) != '=' && After(src, t.start) != '<' then
      Kept("<", t.end, k.generics + [k.prev], "", Content(k.parens, false), false)
    else if t.text == ">" && k.generics != [] && After(src, t.start) != '=' then
      Kept(">", t.end, k.generics[..|k.generics| - 1], k.generics[|k.generics| - 1], Content(k.parens, false), false)
    else Kept(t.text, t.end, k.generics, "", Content(k.parens, t.text == "."), false)
  }

  function Summary(src: string, ts: seq<Tok>): Kept {
    if ts == [] then Kept("", 0, [], "", [], false) else Keep(src, Summary(src, ts[..|ts| - 1]), ts[|ts| - 1])
  }

  lemma SummaryStep(src: string, ts: seq<Tok>, t: Tok)
    ensures Summary(src, ts + [t]) == Keep(src, Summary(src, ts), t)
  {
    assert (ts + [t])[..|ts|] == ts;
  }

  lemma GenericsStep(src: string, ts: seq<Tok>, t: Tok)
    ensures OpensGeneric(src, ts + [t], |ts|) <==>
              ts != [] && Is(t, "<") && ts[|ts| - 1].end == t.start && IsIdent(ts[|ts| - 1].text)
              && After(src, t.start) != '=' && After(src, t.start) != '<'
    ensures var before := OpenGenerics(src, ts);
      && OpenGenerics(src, ts + [t]) ==
           (if OpensGeneric(src, ts + [t], |ts|) then before + [ts[|ts| - 1].text]
            else if ClosesGeneric(src, t, before) then before[..|before| - 1]
            else before)
      && EndsGeneric(src, ts + [t], |ts|) == if ClosesGeneric(src, t, before) then before[|before| - 1] else ""
  {
    assert (ts + [t])[..|ts|] == ts;
  }

  /** No token shows anything, one after the other. */
  ghost predicate SoFar(src: string, ts: seq<Tok>) {
    && Placed(src, ts)
    && (ts == [] || (SoFar(src, ts[..|ts| - 1]) && Finding(src, ts, |ts| - 1) == None))
  }

  lemma {:induction false} SoFarClean(src: string, ts: seq<Tok>)
    requires SoFar(src, ts)
    ensures Clean(src, ts)
  {
    if ts != [] {
      var n := |ts| - 1;
      SoFarClean(src, ts[..n]);
      assert ts[..n] + [ts[n]] == ts;
      forall k | 0 <= k < n ensures Finding(src, ts, k) == None { FindingLocal(src, ts[..n], [ts[n]], k); }
    }
  }

  /** The scan finds r in the token that starts at pos. */
  ghost predicate Finds(src: string, ts: seq<Tok>, pos: nat, r: Option<Reason>) requires pos < |src| {
    SkipEnd(src, pos) == pos && Placed(src, ts + [TokenAt(src, pos)]) && Finding(src, ts + [TokenAt(src, pos)], |ts|) == r
  }

  lemma FoundFirst(all: seq<Tok>, src: string, ts: seq<Tok>, pos: nat, r: Option<Reason>)
    requires pos < |src| && all == ts + Tokens(src, pos) && SoFar(src, ts) && Finds(src, ts, pos, r) && r != None
    requires Placed(src, all)
    ensures IsFirst(src, all, r)
  {
    var t := TokenAt(src, pos);
    assert Tokens(src, pos) == [t] + Tokens(src, t.end);
    FirstIs(src, all, ts, t, Tokens(src, t.end), r);
  }

  lemma FirstIs(src: string, all: seq<Tok>, ts: seq<Tok>, t: Tok, rest: seq<Tok>, r: Option<Reason>)
    requires all == ts + ([t] + rest) && Placed(src, all) && Placed(src, ts + [t]) && SoFar(src, ts)
    requires Finding(src, ts + [t], |ts|) == r && r != None
    ensures IsFirst(src, all, r)
  {
    Regroup(ts, t, rest);
    FindingLocal(src, ts + [t], rest, |ts|);
    SoFarClean(src, ts);
    assert FirstAt(src, all, |ts|, r);
  }

  lemma Regroup(ts: seq<Tok>, t: Tok, rest: seq<Tok>)
    ensures ts + ([t] + rest) == (ts + [t]) + rest && (ts + ([t] + rest))[..|ts|] == ts
  {}

  lemma {:induction false} TokensPlaced(src: string, i: nat)
    requires i <= |src|
    ensures Placed(src, Tokens(src, i))
    decreases |src| - i
  {
    if i < |src| {
      if SkipEnd(src, i) > i { TokensPlaced(src, SkipEnd(src, i)); } else { TokensPlaced(src, TokenAt(src, i).end); }
    }
  }

  lemma JudgedIs(src: string, ts: seq<Tok>, t: Tok)
    ensures Judged(src, ts + [t]) == Kept(t.text, t.end, OpenGenerics(src, ts + [t]), EndsGeneric(src, ts + [t], |ts|),
                                          ParensOf(ts + [t]), ClosesCast(ts + [t], |ts|))
  {}

  lemma KeptGenerics(src: string, ts: seq<Tok>, t: Tok)
    ensures Keep(src, Judged(src, ts), t).generics == OpenGenerics(src, ts + [t])
    ensures Keep(src, Judged(src, ts), t).closed == EndsGeneric(src, ts + [t], |ts|)
  {
    JudgedPrev(src, ts);
    GenericsStep(src, ts, t);
    KeepGenerics(src, Judged(src, ts), t);
  }

  lemma JudgedPrev(src: string, ts: seq<Tok>)
    ensures var k := Judged(src, ts);
      && k.generics == OpenGenerics(src, ts)
      && (ts == [] ==> k.prev == "")
      && (ts != [] ==> k.prev == ts[|ts| - 1].text && k.prevEnd == ts[|ts| - 1].end)
  {}

  lemma KeepGenerics(src: string, k: Kept, t: Tok)
    ensures var next, n := Keep(src, k, t), After(src, t.start);
      if Is(t, "<") && k.prevEnd == t.start && IsIdent(k.prev) && n != '=' && n != '<' then
        next.generics == k.generics + [k.prev] && next.closed == ""
      else if Is(t, ">") && k.generics != [] && n != '=' then
        next.generics == k.generics[..|k.generics| - 1] && next.closed == k.generics[|k.generics| - 1]
      else next.generics == k.generics && next.closed == ""
  {}

  lemma KeptParens(src: string, ts: seq<Tok>, t: Tok)
    ensures Keep(src, Judged(src, ts), t).parens == ParensOf(ts + [t])
    ensures Keep(src, Judged(src, ts), t).castClose == ClosesCast(ts + [t], |ts|)
  {
    JudgedParens(src, ts);
    if Is(t, "(") {
      ParensOpen(ts, t);
    } else if Is(t, ")") && ParensOf(ts) != [] {
      ParensClose(ts, t);
    } else {
      ParensPlain(ts, t);
    }
  }

  lemma JudgedParens(src: string, ts: seq<Tok>)
    ensures Judged(src, ts).parens == ParensOf(ts)
  {}

  lemma JudgedStep(src: string, ts: seq<Tok>, t: Tok)
    ensures Judged(src, ts + [t]) == Keep(src, Judged(src, ts), t)
  {
    JudgedIs(src, ts, t);
    KeptGenerics(src, ts, t);
    KeptParens(src, ts, t);
  }

  /** The small summaries are what the judgement asks for: bracket counting
      included. */
  lemma {:induction false} SummaryIsJudged(src: string, ts: seq<Tok>)
    ensures Summary(src, ts) == Judged(src, ts)
  {
    if ts != [] {
      var k := |ts| - 1;
      assert ts[..k] + [ts[k]] == ts;
      SummaryIsJudged(src, ts[..k]);
      JudgedStep(src, ts[..k], ts[k]);
    }
  }

  /** Where a scan is, nothing found so far. */
  ghost predicate At(all: seq<Tok>, src: string, ts: seq<Tok>, pos: nat, kept: Kept) {
    pos <= |src| && all == ts + Tokens(src, pos) && SoFar(src, ts) && kept == Summary(src, ts)
  }

  /** The next token, which shows nothing. */
  ghost predicate IsNext(all: seq<Tok>, src: string, ts: seq<Tok>, t: Tok) {
    SoFar(src, ts + [t]) && t.end <= |src| && all == (ts + [t]) + Tokens(src, t.end)
  }

  lemma NextPlaced(src: string, ts: seq<Tok>, pos: nat)
    requires pos < |src| && Placed(src, ts)
    ensures Placed(src, ts + [TokenAt(src, pos)])
  {}

  /** The token at pos, when it shows nothing, is the next one. */
  lemma NextAt(all: seq<Tok>, src: string, ts: seq<Tok>, pos: nat, kept: Kept)
    requires At(all, src, ts, pos, kept) && pos < |src| && SkipEnd(src, pos) == pos && Placed(src, ts + [TokenAt(src, pos)])
    requires Finding(src, ts + [TokenAt(src, pos)], |ts|) == None
    ensures IsNext(all, src, ts, TokenAt(src, pos))
  {
    var t := TokenAt(src, pos);
    assert (ts + [t])[..|ts|] == ts;
    assert Tokens(src, pos) == [t] + Tokens(src, t.end);
  }

  /** What the scan must keep after one more token. */
  lemma Took(all: seq<Tok>, src: string, ts: seq<Tok>, t: Tok)
    requires IsNext(all, src, ts, t)
    ensures At(all, src, ts + [t], t.end, Keep(src, Summary(src, ts), t))
  {
    SummaryStep(src, ts, t);
  }

  lemma WordText(src: string, pos: nat)
    requires pos < |src| && TokenAt(src, pos).kind == Word
    ensures TokenAt(src, pos).text == src[pos..WordEnd(src, pos + 1)] && TokenAt(src, pos).end == WordEnd(src, pos + 1)
  {}

  lemma WordShows(src: string, ts: seq<Tok>, t: Tok)
    requires Placed(src, ts + [t]) && t.kind == Word
    ensures Finding(src, ts + [t], |ts|) == if t.text == "new" then Some(CreatesObject) else None
  {
    assert (ts + [t])[|ts|] == t;
  }

  lemma PlainShows(src: string, ts: seq<Tok>, t: Tok)
    requires Placed(src, ts + [t]) && t.kind == Plain && t.text != "=" && t.text != "("
    ensures Finding(src, ts + [t], |ts|) == None
  {
    assert (ts + [t])[|ts|] == t;
  }

  lemma TookLiteral(all: seq<Tok>, src: string, ts: seq<Tok>, pos: nat, kept: Kept)
    requires At(all, src, ts, pos, kept) && pos < |src| && SkipEnd(src, pos) == pos
    requires TokenAt(src, pos).kind == Plain && TokenAt(src, pos).text in {"\"", "'", "0"}
    ensures var t := TokenAt(src, pos);
      At(all, src, ts + [t], t.end, Kept(t.text, t.end, kept.generics, "", Content(kept.parens, false), false))
  {
    var t := TokenAt(src, pos);
    NextPlaced(src, ts, pos);
    PlainShows(src, ts, t);
    NextAt(all, src, ts, pos, kept);
    Took(all, src, ts, t);
  }

  // ------------------------------------------------------- single characters

  lemma QuoteTok(src: string, pos: nat)
    requires pos < |src|
    ensures src[pos] == '"' ==> TokenAt(src, pos) == Tok(Plain, "\"", pos, StringEnd(src, pos + 1, false))
    ensures src[pos] == '@' && After(src, pos) == '"' ==> TokenAt(src, pos) == Tok(Plain, "\"", pos, StringEnd(src, pos + 2, true))
    ensures src[pos] == '\'' ==> TokenAt(src, pos) == Tok(Plain, "'", pos, CharEnd(src, pos + 1))
  {}

  lemma NumberTok(src: string, pos: nat)
    requires pos < |src| && '0' <= src[pos] <= '9'
    ensures TokenAt(src, pos) == Tok(Plain, "0", pos, NumberEnd(src, pos + 1))
  {}

  lemma TookNumber(all: seq<Tok>, src: string, ts: seq<Tok>, pos: nat, kept: Kept)
    requires At(all, src, ts, pos, kept) && pos < |src| && SkipEnd(src, pos) == pos && '0' <= src[pos] <= '9'
    ensures var t := TokenAt(src, pos);
      && t.end == NumberEnd(src, pos + 1)
      && At(all, src, ts + [t], t.end, Kept("0", t.end, kept.generics, "", Content(kept.parens, false), false))
  {
    NumberTok(src, pos);
    TookLiteral(all, src, ts, pos, kept);
  }

  /** Neither a literal nor a name starts here. */
  predicate IsPunct(src: string, pos: nat) requires pos < |src| {
    var c, n := src[pos], After(src, pos);
    && c != '"' && c != '\'' && !IsIdentStart(c) && !('0' <= c <= '9')
    && (c == '$' ==> n != '"' && n != '@' && !IsIdentStart(n))
    && (c == '@' ==> n != '"' && n != '$' && !IsIdentStart(n))
  }

  lemma PunctTok(src: string, pos: nat)
    requires pos < |src| && IsPunct(src, pos)
    ensures var c, n := src[pos], After(src, pos);
      TokenAt(src, pos) == if (c == '+' || c == '-') && n == c then Tok(Step, [c], pos, pos + 2)
                           else if c == '=' && (n == '=' || n == '>') then Tok(Plain, "=", pos, pos + 2)
                           else Tok(Plain, [c], pos, pos + 1)
  {}

  /** A punctuator that neither opens nor closes a parenthesis, nor is an "=". */
  predicate IsSingle(src: string, pos: nat, kept: Kept) requires pos < |src| {
    && IsPunct(src, pos) && src[pos] != '(' && !(src[pos] == ')' && kept.parens != []) && src[pos] != '='
    && !((src[pos] == '+' || src[pos] == '-') && After(src, pos) == src[pos])
  }

  lemma TookSingle(all: seq<Tok>, src: string, ts: seq<Tok>, pos: nat, kept: Kept)
    requires At(all, src, ts, pos, kept) && pos < |src| && SkipEnd(src, pos) == pos && IsSingle(src, pos, kept)
    ensures TokenAt(src, pos).end == pos + 1
    ensures At(all, src, ts + [TokenAt(src, pos)], pos + 1, KeepChar(src, kept, pos))
  {
    var t, c := TokenAt(src, pos), src[pos];
    PunctTok(src, pos);
    NextPlaced(src, ts, pos);
    OneChar(c, '=');
    OneChar(c, '(');
    PlainShows(src, ts, t);
    NextAt(all, src, ts, pos, kept);
    OneChar(c, ')');
    OneChar(c, '<');
    OneChar(c, '>');
    OneChar(c, '.');
    Took(all, src, ts, t);
  }

  /** What a punctuator character makes of what the scan keeps. */
  function KeepChar(src: string, k: Kept, pos: nat): Kept requires pos < |src| {
    var c, n := src[pos], After(src, pos);
    if c == '<' && k.prevEnd == pos && IsIdent(k.prev) && n != '=' && n != '<' then
      Kept("<", pos + 1, k.generics + [k.prev], "", Content(k.parens, false), false)
    else if c == '>' && k.generics != [] && n != '=' then
      Kept(">", pos + 1, k.generics[..|k.generics| - 1], k.generics[|k.generics| - 1], Content(k.parens, false), false)
    else Kept([c], pos + 1, k.generics, "", Content(k.parens, c == '.'), false)
  }

  lemma OneChar(c: char, d: char)
    ensures [c] == [d] <==> c == d
  {
    assert [c][0] == c && [d][0] == d;
  }

  /** What a "(" at pos calls, of what the scan keeps. */
  function CalledBy(kept: Kept, pos: nat): Option<string> {
    if IsIdent(kept.prev) && !NotCall(kept.prev) then Some(Trimmed(kept.prev))
    else if kept.prevEnd != pos then None
    else if (kept.prev == ")" && !kept.castClose) || kept.prev == "]" then Some("")
    else if kept.prev == ">" && kept.closed != "" then Some(Trimmed(kept.closed))
    else None
  }

  lemma TookParen(all: seq<Tok>, src: string, ts: seq<Tok>, pos: nat, kept: Kept)
    requires At(all, src, ts, pos, kept) && pos < |src| && SkipEnd(src, pos) == pos && src[pos] == '('
    ensures var t := TokenAt(src, pos);
      && t.end == pos + 1
      && if CalledBy(kept, pos).Some? then Finds(src, ts, pos, Some(Calls(CalledBy(kept, pos).value)))
         else At(all, src, ts + [t], pos + 1, Kept("(", pos + 1, kept.generics, "", Content(kept.parens, false) + [Paren(true, true)], false))
  {
    var t := TokenAt(src, pos);
    PunctTok(src, pos);
    NextPlaced(src, ts, pos);
    assert t == Tok(Plain, "(", pos, pos + 1);
    CallShows(src, ts, t);
    if CalledBy(kept, pos).None? {
      NextAt(all, src, ts, pos, kept);
      Took(all, src, ts, t);
    }
  }

  lemma CalleeIs(src: string, ts: seq<Tok>, t: Tok)
    ensures Callee(src, ts + [t], |ts|) == CalledBy(Judged(src, ts), t.start)
  {
    var us := ts + [t];
    if ts != [] {
      var k := |ts| - 1;
      assert us[k] == ts[k] && us[..k] == ts[..k];
      ClosesCastLocal(ts, [t], k);
    }
  }

  lemma CallShows(src: string, ts: seq<Tok>, t: Tok)
    requires Placed(src, ts + [t]) && Is(t, "(")
    ensures Finding(src, ts + [t], |ts|) ==
      if CalledBy(Summary(src, ts), t.start).Some? then Some(Calls(CalledBy(Summary(src, ts), t.start).value)) else None
  {
    SummaryIsJudged(src, ts);
    CalleeIs(src, ts, t);
    assert (ts + [t])[|ts|] == t;
  }

  lemma TookClosing(all: seq<Tok>, src: string, ts: seq<Tok>, pos: nat, kept: Kept)
    requires At(all, src, ts, pos, kept) && pos < |src| && SkipEnd(src, pos) == pos && src[pos] == ')' && kept.parens != []
    ensures var t, p := TokenAt(src, pos), kept.parens[|kept.parens| - 1];
      && t.end == pos + 1
      && At(all, src, ts + [t], pos + 1, Kept(")", pos + 1, kept.generics, "", kept.parens[..|kept.parens| - 1], p.name && !p.empty))
  {
    var t := TokenAt(src, pos);
    PunctTok(src, pos);
    NextPlaced(src, ts, pos);
    assert t == Tok(Plain, ")", pos, pos + 1);
    PlainShows(src, ts, t);
    NextAt(all, src, ts, pos, kept);
    Took(all, src, ts, t);
  }

  lemma TookEquals(all: seq<Tok>, src: string, ts: seq<Tok>, pos: nat, kept: Kept)
    requires At(all, src, ts, pos, kept) && pos < |src| && SkipEnd(src, pos) == pos && src[pos] == '='
    ensures var t := TokenAt(src, pos);
      && t == Tok(Plain, "=", pos, if After(src, pos) == '=' || After(src, pos) == '>' then pos + 2 else pos + 1)
      && if IsAssignment(src, t) then Finds(src, ts, pos, Some(Assigns))
         else At(all, src, ts + [t], t.end, Kept("=", t.end, kept.generics, "", Content(kept.parens, false), false))
  {
    var t := TokenAt(src, pos);
    PunctTok(src, pos);
    NextPlaced(src, ts, pos);
    assert (ts + [t])[|ts|] == t;
    if !IsAssignment(src, t) {
      NextAt(all, src, ts, pos, kept);
      Took(all, src, ts, t);
    }
  }

  lemma StepFinds(all: seq<Tok>, src: string, ts: seq<Tok>, pos: nat, kept: Kept)
    requires At(all, src, ts, pos, kept) && pos < |src| && SkipEnd(src, pos) == pos && IsPunct(src, pos)
    requires (src[pos] == '+' || src[pos] == '-') && After(src, pos) == src[pos]
    ensures Finds(src, ts, pos, Some(Increments))
  {
    PunctTok(src, pos);
    NextPlaced(src, ts, pos);
  }

  // ------------------------------------------------------------------ scanner

  /** Walks an expression one token at a time. */
  class Scanner {
    const src: string
    ghost const all: seq<Tok>
    var pos: nat
    /** The previous token and where it ended. */
    var prev: string
    var prevEnd: nat
    /** The identifiers before each open generic "<". */
    var generics: seq<string>
    /** The identifier whose generic ">" is prev. */
    var closed: string
    var parens: seq<Paren>
    /** prev is a ")" that closed one holding only a dotted name. */
    var castClose: bool
    ghost var toks: seq<Tok>

    constructor (src: string)
      ensures Valid() && this.src == src && toks == [] && pos == 0 && all == Tokens(src, 0)
    {
      this.all := Tokens(src, 0);
      this.src, pos, prev, prevEnd, generics, closed, parens, castClose := src, 0, "", 0, [], "", [], false;
      toks := [];
    }

    ghost predicate Valid() reads this {
      At(all, src, toks, pos, Kept(prev, prevEnd, generics, closed, parens, castClose))
    }

    /** A token starts at pos. */
    ghost predicate AtToken() reads this { Valid() && pos < |src| && SkipEnd(src, pos) == pos }

    ghost function Here(): Tok requires pos < |src| reads this { TokenAt(src, pos) }

    /** The token at p after the tokens ts was read, and shows nothing; or it
        shows r. */
    ghost predicate Reads(r: Option<Reason>, ts: seq<Tok>, p: nat) reads this {
      && p < |src|
      && if r == None then Valid() && toks == ts + [TokenAt(src, p)] && pos == TokenAt(src, p).end else Finds(src, ts, p, r)
    }

    method NoteContent(partOfName: bool)
      modifies this`parens
      ensures parens == Content(old(parens), partOfName)
    {
      if parens != [] {
        var n := |parens| - 1;
        parens := parens[n := Paren(parens[n].name && partOfName, false)];
      }
    }

    method Token(tok: string, end: nat)
      modifies this`prev, this`prevEnd, this`pos, this`closed, this`castClose
      ensures prev == tok && prevEnd == pos == end && closed == "" && !castClose
    {
      prev, prevEnd, pos := tok, end, end;
      closed, castClose := "", false;
    }

    /** Skips whitespace or a comment at pos. */
    method SkipSpace() returns (skipped: bool)
      requires pos < |src|
      modifies this`pos
      ensures pos == SkipEnd(src, old(pos)) && (skipped <==> pos > old(pos))
    {
      var c := src[pos];
      if IsSpace(c) {
        pos := pos + 1;
        skipped := true;
      } else if c == '/' && (After(src, pos) == '*' || After(src, pos) == '/') {
        SkipComment();
        skipped := true;
      } else {
        skipped := false;
      }
    }

    method SkipComment()
      requires pos < |src| && src[pos] == '/' && (After(src, pos) == '*' || After(src, pos) == '/')
      modifies this`pos
      ensures pos == SkipEnd(src, old(pos)) > old(pos)
    {
      if After(src, pos) == '/' {
        pos := |src|;
        return;
      }
      var i := pos + 2;
      while i + 1 < |src| && !(src[i] == '*' && src[i + 1] == '/')
        invariant pos + 2 <= i <= |src| && CommentEnd(src, i) == CommentEnd(src, pos + 2)
      {
        i := i + 1;
      }
      pos := if i + 1 < |src| then i + 2 else |src|;
    }

    method SkipString(from: nat, verbatim: bool, ghost t: Tok)
      requires Leads(t, "\"") && t.end == StringEnd(src, from, verbatim)
      modifies this
      ensures Valid() && toks == old(toks) + [t] && pos == t.end
    {
      NoteContent(false);
      var i := from;
      while i < |src|
        invariant StringEnd(src, i, verbatim) == StringEnd(src, from, verbatim)
        invariant parens == Content(old(parens), false) && Stays()
        decreases |src| - i
      {
        if verbatim && src[i] == '"' && After(src, i) == '"' {
          i := i + 2;
        } else if !verbatim && src[i] == '\\' {
          i := i + 2;
        } else if src[i] == '"' {
          Token("\"", i + 1);
          toks := toks + [t];
          return;
        } else {
          i := i + 1;
        }
      }
      Token("\"", |src|);
      toks := toks + [t];
    }

    /** Reading the token t, no part of a name, leads on. */
    ghost predicate Leads(t: Tok, text: string) reads this {
      At(all, src, toks + [t], t.end, Kept(text, t.end, generics, "", Content(parens, false), false))
    }

    twostate predicate Stays() reads this { generics == old(generics) && toks == old(toks) }

    method SkipChar(ghost t: Tok)
      requires Leads(t, "'") && t.end == CharEnd(src, pos + 1)
      modifies this
      ensures Valid() && toks == old(toks) + [t] && pos == t.end
    {
      NoteContent(false);
      var i := pos + 1;
      while i < |src| && src[i] != '\''
        invariant CharEnd(src, i) == CharEnd(src, pos + 1) && pos == old(pos)
        invariant parens == Content(old(parens), false) && Stays()
        decreases |src| - i
      {
        if src[i] == '\\' { i := i + 1; }
        i := i + 1;
      }
      Token("'", if i + 1 < |src| then i + 1 else |src|);
      toks := toks + [t];
    }

    method Number(ghost t: Tok)
      requires pos < |src| && '0' <= src[pos] <= '9' && Leads(t, "0") && t.end == NumberEnd(src, pos + 1)
      modifies this
      ensures Valid() && toks == old(toks) + [t] && pos == t.end
    {
      NoteContent(false);
      var i := pos;
      while i < |src| && (IsIdentPart(src[i]) || src[i] == '.')
        invariant pos == old(pos) && pos <= i <= |src| && NumberEnd(src, i) == NumberEnd(src, pos)
        invariant parens == Content(old(parens), false) && Stays()
      {
        i := i + 1;
      }
      Token("0", i);
      toks := toks + [t];
    }

    method WordTo() returns (i: nat)
      requires pos < |src|
      ensures i == WordEnd(src, pos + 1)
    {
      i := pos + 1;
      while i < |src| && IsIdentPart(src[i])
        invariant pos + 1 <= i <= |src| && WordEnd(src, i) == WordEnd(src, pos + 1)
      {
        i := i + 1;
      }
    }

    method Ident() returns (r: Option<Reason>)
      requires AtToken() && Here().kind == Word
      modifies this
      ensures Reads(r, old(toks), old(pos))
    {
      ghost var t := Here();
      NextPlaced(src, toks, pos);
      WordText(src, pos);
      WordShows(src, toks, t);
      var i := WordTo();
      var word := src[pos..i];
      if word == "new" { return Some(CreatesObject); }
      NextAt(all, src, toks, pos, Kept(prev, prevEnd, generics, closed, parens, castClose));
      TakeWord(word, i, t);
      r := None;
    }

    method TakeWord(word: string, i: nat, ghost t: Tok)
      requires Valid() && IsNext(all, src, toks, t) && t.kind == Word && t.text == word && t.end == i
      modifies this
      ensures Valid() && toks == old(toks) + [t] && pos == t.end
    {
      Took(all, src, toks, t);
      NoteContent(true);
      Token(word, i);
      toks := toks + [t];
    }

    /** Reads a string, a character, an interpolated string or a $ or @ identifier
        at pos, if one starts there. */
    method Literal() returns (r: Option<Reason>, done: bool)
      requires AtToken() && src[pos] in {'$', '@', '"', '\''}
      modifies this
      ensures if done then Reads(r, old(toks), old(pos)) else AtToken() && toks == old(toks) && pos == old(pos) && IsPunct(src, pos)
    {
      var c, n := src[pos], After(src, pos);
      done := true;
      if (c == '$' && (n == '"' || n == '@')) || (c == '@' && n == '$') {
        NextPlaced(src, toks, pos);
        return Some(Interpolates), true;
      }
      if c == '"' || (c == '@' && n == '"') || c == '\'' {
        Quoted();
        r := None;
      } else if IsIdentStart(n) {
        r := Ident();
      } else {
        r, done := None, false;
      }
    }

    method Quoted()
      requires AtToken() && (src[pos] == '"' || (src[pos] == '@' && After(src, pos) == '"') || src[pos] == '\'')
      modifies this
      ensures Reads(None, old(toks), old(pos))
    {
      ghost var t := Here();
      QuoteTok(src, pos);
      TookLiteral(all, src, toks, pos, Kept(prev, prevEnd, generics, closed, parens, castClose));
      if src[pos] == '"' {
        SkipString(pos + 1, false, t);
      } else if src[pos] == '@' {
        SkipString(pos + 2, true, t);
      } else {
        SkipChar(t);
      }
    }

    method ReadNumber()
      requires AtToken() && '0' <= src[pos] <= '9'
      modifies this
      ensures Reads(None, old(toks), old(pos))
    {
      ghost var t := Here();
      TookNumber(all, src, toks, pos, Kept(prev, prevEnd, generics, closed, parens, castClose));
      assert Leads(t, "0");
      Number(t);
    }

    /** Reads one punctuator character, and the operator it starts. */
    method Punct() returns (r: Option<Reason>)
      requires AtToken() && IsPunct(src, pos)
      modifies this
      ensures Reads(r, old(toks), old(pos))
    {
      var c, n := src[pos], After(src, pos);
      if (c == '+' || c == '-') && n == c {
        StepFinds(all, src, toks, pos, Kept(prev, prevEnd, generics, closed, parens, castClose));
        return Some(Increments);
      }
      if c == '(' {
        r := OpenOrCall();
      } else if c == ')' && parens != [] {
        CloseOne();
        r := None;
      } else if c == '=' {
        r := Equals();
      } else {
        Single();
        r := None;
      }
    }

    method Single()
      requires AtToken() && IsSingle(src, pos, Kept(prev, prevEnd, generics, closed, parens, castClose))
      modifies this
      ensures Reads(None, old(toks), old(pos))
    {
      ghost var t := Here();
      TookSingle(all, src, toks, pos, Kept(prev, prevEnd, generics, closed, parens, castClose));
      SingleChar();
      toks := toks + [t];
    }

    method SingleChar()
      requires pos < |src|
      modifies this
      ensures Kept(prev, prevEnd, generics, closed, parens, castClose)
              == KeepChar(src, old(Kept(prev, prevEnd, generics, closed, parens, castClose)), old(pos))
      ensures pos == old(pos) + 1 && toks == old(toks)
    {
      var c, n := src[pos], After(src, pos);
      if c == '<' && prevEnd == pos && IsIdent(prev) && n != '=' && n != '<' {
        generics := generics + [prev];
      } else if c == '>' && generics != [] && n != '=' {
        var name := generics[|generics| - 1];
        generics := generics[..|generics| - 1];
        NoteContent(false);
        Token(">", pos + 1);
        closed := name;
        return;
      }
      NoteContent(c == '.');
      Token([c], pos + 1);
    }

    /** Reads "(": a call, or an open parenthesis. */
    method OpenOrCall() returns (r: Option<Reason>)
      requires AtToken() && src[pos] == '('
      modifies this
      ensures Reads(r, old(toks), old(pos))
    {
      ghost var t := Here();
      TookParen(all, src, toks, pos, Kept(prev, prevEnd, generics, closed, parens, castClose));
      var name := CalledBy(Kept(prev, prevEnd, generics, closed, parens, castClose), pos);
      if name.Some? { return Some(Calls(name.value)); }
      Open(t);
      r := None;
    }

    /** Reads a ")" that closes an open one. */
    method CloseOne()
      requires AtToken() && src[pos] == ')' && parens != []
      modifies this
      ensures Reads(None, old(toks), old(pos))
    {
      ghost var t := Here();
      TookClosing(all, src, toks, pos, Kept(prev, prevEnd, generics, closed, parens, castClose));
      Close(t);
    }

    method Open(ghost t: Tok)
      requires Valid()
      requires At(all, src, toks + [t], pos + 1, Kept("(", pos + 1, generics, "", Content(parens, false) + [Paren(true, true)], false))
      modifies this
      ensures Valid() && toks == old(toks) + [t] && pos == old(pos) + 1
    {
      NoteContent(false);
      parens := parens + [Paren(true, true)];
      Token("(", pos + 1);
      toks := toks + [t];
    }

    method Close(ghost t: Tok)
      requires Valid() && parens != []
      requires At(all, src, toks + [t], pos + 1, Kept(")", pos + 1, generics, "", parens[..|parens| - 1],
                                                 parens[|parens| - 1].name && !parens[|parens| - 1].empty))
      modifies this
      ensures Valid() && toks == old(toks) + [t] && pos == old(pos) + 1
    {
      var p := parens[|parens| - 1];
      parens := parens[..|parens| - 1];
      Token(")", pos + 1);
      castClose := p.name && !p.empty;
      toks := toks + [t];
    }

    /** An "=": part of ==, !=, <=, >= or => it is not an assignment; every other
        one is. */
    method Equals() returns (r: Option<Reason>)
      requires AtToken() && src[pos] == '='
      modifies this
      ensures Reads(r, old(toks), old(pos))
    {
      ghost var t := Here();
      TookEquals(all, src, toks, pos, Kept(prev, prevEnd, generics, closed, parens, castClose));
      var next := After(src, pos);
      if next == '=' || next == '>' {
        Compare(pos + 2, t);
        return None;
      }
      var before := if pos > 0 then src[pos - 1] else '\0';
      var before2 := if pos > 1 then src[pos - 2] else '\0';
      if !(before == '!' || ((before == '<' || before == '>') && before2 != before)) { return Some(Assigns); }
      Compare(pos + 1, t);
      r := None;
    }

    method Compare(end: nat, ghost t: Tok)
      requires Valid() && t.end == end && Leads(t, "=")
      modifies this
      ensures Valid() && toks == old(toks) + [t] && pos == end
    {
      NoteContent(false);
      Token("=", end);
      toks := toks + [t];
    }

    /** Reads one token, or skips what is none, and reports a side effect it
        shows. */
    method Next() returns (r: Option<Reason>)
      requires Valid() && pos < |src|
      modifies this
      ensures r == None ==> Valid() && pos > old(pos)
      ensures r != None ==> SoFar(src, old(toks)) && Finds(src, old(toks), old(pos), r)
    {
      var c := src[pos];
      var skipped := SkipSpace();
      if skipped { return None; }
      if c in {'$', '@', '"', '\''} {
        var done;
        r, done := Literal();
        if !done { r := Punct(); }
      } else if IsIdentStart(c) {
        r := Ident();
      } else if '0' <= c <= '9' {
        ReadNumber();
        r := None;
      } else {
        r := Punct();
      }
    }
  }

  /** Finds what in an expression visibly changes the program: the first finding
      of its tokens. */
  method FindSideEffects(expr: string) returns (r: Option<Reason>)
    ensures IsFirst(expr, Tokens(expr, 0), r)
  {
    TokensPlaced(expr, 0);
    var sc := new Scanner(expr);
    while sc.pos < |expr|
      invariant sc.src == expr && sc.all == Tokens(expr, 0) && sc.Valid()
      decreases |expr| - sc.pos
    {
      ghost var toks, pos := sc.toks, sc.pos;
      r := sc.Next();
      if r != None {
        FoundFirst(sc.all, expr, toks, pos, r);
        return;
      }
    }
    r := None;
    assert sc.toks == Tokens(expr, 0);
    SoFarClean(expr, sc.toks);
  }

  // ------------------------------------------------------------- what it means

  ghost predicate Shows(expr: string, ts: seq<Tok>, k: nat) requires k < |ts| && Placed(expr, ts) {
    var t := ts[k];
    assert t in ts;
    || t.kind == Interpolated
    || t.kind == Step
    || (t.kind == Word && t.text == "new")
    || IsAssignment(expr, t)
    || (Is(t, "(") && Callee(expr, ts, k).Some?)
  }

  ghost predicate SomeShows(expr: string, ts: seq<Tok>) requires Placed(expr, ts) {
    exists k: nat :: k < |ts| && Shows(expr, ts, k)
  }

  /** Something is found exactly when the tokens hold new, ++ or --, an
      interpolated string, an assigning "=" or a calling "(". */
  lemma FoundWhen(expr: string, r: Option<Reason>)
    requires IsFirst(expr, Tokens(expr, 0), r)
    ensures r != None <==> SomeShows(expr, Tokens(expr, 0))
  {
    var ts := Tokens(expr, 0);
    if r != None {
      var k: nat :| FirstAt(expr, ts, k, r);
      ShowsWhat(expr, ts, k);
      assert Shows(expr, ts, k);
    } else {
      assert Clean(expr, ts);
      forall k: nat | k < |ts| ensures !Shows(expr, ts, k) { ShowsWhat(expr, ts, k); }
    }
  }

  lemma ShowsWhat(expr: string, ts: seq<Tok>, k: nat)
    requires k < |ts| && Placed(expr, ts)
    ensures Shows(expr, ts, k) <==> Finding(expr, ts, k) != None
  {}

  /** The first finding is the only one there is to report. */
  lemma OneFirst(expr: string, a: Option<Reason>, b: Option<Reason>)
    requires IsFirst(expr, Tokens(expr, 0), a) && IsFirst(expr, Tokens(expr, 0), b)
    ensures a == b
  {
    var ts := Tokens(expr, 0);
    if a != None && b != None {
      var j: nat :| FirstAt(expr, ts, j, a);
      var k: nat :| FirstAt(expr, ts, k, b);
      if j < k { FindingBefore(expr, ts, j, k); } else if k < j { FindingBefore(expr, ts, k, j); }
    }
  }

  lemma FindingBefore(expr: string, ts: seq<Tok>, j: nat, k: nat)
    requires j < k < |ts| && Placed(expr, ts) && Placed(expr, ts[..k])
    ensures Finding(expr, ts[..k], j) == Finding(expr, ts, j)
  {
    assert ts[..k] + ts[k..] == ts;
    FindingLocal(expr, ts[..k], ts[k..], j);
  }

  /** While a scan goes on, castClose says whether the ")" just read closes a
      cast, by bracket counting. */
  lemma CastCloseCounts(expr: string, sc: Scanner)
    requires sc.Valid() && sc.src == expr
    ensures sc.castClose <==> sc.toks != [] && ClosesCast(sc.toks, |sc.toks| - 1)
  {
    SummaryIsJudged(expr, sc.toks);
  }
}
