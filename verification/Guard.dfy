/** The eval check of a manifest's guard (drivers/generic/guard.go): one pass over
    an expression's characters, against a judgement on its tokens. */
module Guard {
  import opened Wrappers

  const OP_CHARS := {'=', '<', '>', '!', ':', '+', '-', '*', '/', '%', '&', '|', '^', '~', '@'}

  /** A manifest's evalGuard, ready to scan with. */
  datatype Guard = Guard(quotes: string, prefixes: set<string>, nonCall: set<string>, safe: set<string>, assign: seq<string>)

  /** What Unicode says of characters. */
  datatype Unicode = Unicode(letter: char -> bool, digit: char -> bool, space: char -> bool, lower: string -> string)

  predicate UnicodeOk(u: Unicode) { !u.letter('.') && !u.digit('.') && !u.space('.') }

  datatype Tok =
    | Name(word: string, end: nat)
    | Text(quote: char, prefix: Option<string>, closed: bool, end: nat)
    | Number(first: char, end: nat)
    | Open(end: nat)
    | Closer(c: char, end: nat)
    | Run(text: string, end: nat)
    | Other(c: char, end: nat)

  datatype Finding = Unterminated | Interpolates | Calls(name: Option<string>) | Assigns(op: string)

  // ------------------------------------------------------------------ lexing

  predicate IsIdentStart(u: Unicode, c: char) { c == '_' || c >= '\U{80}' || u.letter(c) }

  predicate IsIdentPart(u: Unicode, c: char) { IsIdentStart(u, c) || u.digit(c) }

  function WordEnd(u: Unicode, rs: string, i: nat): (end: nat)
    requires i <= |rs|
    ensures i <= end <= |rs|
    decreases |rs| - i
  {
    if i < |rs| && IsIdentPart(u, rs[i]) then WordEnd(u, rs, i + 1) else i
  }

  function NumberEnd(u: Unicode, rs: string, i: nat): (end: nat)
    requires i <= |rs|
    ensures i <= end <= |rs|
    decreases |rs| - i
  {
    if i < |rs| && (IsIdentPart(u, rs[i]) || rs[i] == '.') then NumberEnd(u, rs, i + 1) else i
  }

  function RunEnd(rs: string, i: nat): (end: nat)
    requires i <= |rs|
    ensures i <= end <= |rs|
    decreases |rs| - i
  {
    if i < |rs| && rs[i] in OP_CHARS then RunEnd(rs, i + 1) else i
  }

  /** How many quotes start and end the string at i: a tripled quote goes to the
      matching triple. */
  function Quotes(rs: string, i: nat): nat requires i < |rs| {
    if i + 2 < |rs| && rs[i + 1] == rs[i] && rs[i + 2] == rs[i] then 3 else 1
  }

  predicate Closes(rs: string, i: nat, q: char, n: nat) {
    i + n <= |rs| && forall k | i <= k < i + n :: rs[k] == q
  }

  /** Where the string whose text goes on at i ends, if it does. */
  function TextEnd(rs: string, i: nat, q: char, n: nat): (end: Option<nat>)
    requires n > 0
    ensures end.Some? ==> i < end.value <= |rs|
    decreases |rs| - i
  {
    if i >= |rs| then None
    else if rs[i] == '\\' then TextEnd(rs, i + 2, q, n)
    else if Closes(rs, i, q, n) then Some(i + n)
    else TextEnd(rs, i + 1, q, n)
  }

  function TextAt(rs: string, i: nat, prefix: Option<string>): (t: Tok)
    requires i < |rs|
    ensures t.Text? && i < t.end <= |rs|
  {
    var end := TextEnd(rs, i + Quotes(rs, i), rs[i], Quotes(rs, i));
    Text(rs[i], prefix, end.Some?, if end.Some? then end.value else |rs|)
  }

  /** The token at i, which is no space. */
  function TokenAt(g: Guard, u: Unicode, rs: string, i: nat): (t: Tok)
    requires i < |rs|
    ensures i < t.end <= |rs|
  {
    var c := rs[i];
    if c in g.quotes then TextAt(rs, i, None)
    else if IsIdentStart(u, c) then
      var end := WordEnd(u, rs, i + 1);
      if end < |rs| && rs[end] in g.quotes then TextAt(rs, end, Some(rs[i..end])) else Name(rs[i..end], end)
    else if '0' <= c <= '9' then Number(c, NumberEnd(u, rs, i + 1))
    else if c == '(' then Open(i + 1)
    else if c == ')' || c == ']' then Closer(c, i + 1)
    else if c in OP_CHARS then Run(rs[i..RunEnd(rs, i + 1)], RunEnd(rs, i + 1))
    else Other(c, i + 1)
  }

  /** The tokens from i on; nothing after a string that does not end. */
  function Tokens(g: Guard, u: Unicode, rs: string, i: nat): seq<Tok>
    requires i <= |rs|
    decreases |rs| - i
  {
    if i == |rs| then []
    else if u.space(rs[i]) then Tokens(g, u, rs, i + 1)
    else
      var t := TokenAt(g, u, rs, i);
      [t] + if t.Text? && !t.closed then [] else Tokens(g, u, rs, t.end)
  }

  // --------------------------------------------------------------- judgement

  /** A "." (or a string quoted with dots) came before the token at k. */
  predicate IsDotted(ts: seq<Tok>, k: nat) requires k < |ts| {
    k > 0 && ((ts[k - 1].Other? && ts[k - 1].c == '.') || (ts[k - 1].Text? && ts[k - 1].quote == '.'))
  }

  /** The assignment operator a run starts with: all of it, or followed by
      something other than "=". */
  predicate Starts(run: string, op: string) {
    run == op || (op < run && run[|op|] != '=')
  }

  function Assignment(ops: seq<string>, run: string): (op: Option<string>)
    ensures op == None <==> forall o | o in ops :: !Starts(run, o)
    ensures op.Some? ==> op.value in ops && Starts(run, op.value)
  {
    if ops == [] then None
    else if Starts(run, ops[0]) then Some(ops[0])
    else Assignment(ops[1..], run)
  }

  /** A "(" after this token calls: a name not exempt, or a closer. A safe name is
      exempt only when no "." comes before it. */
  function Callee(g: Guard, ts: seq<Tok>, k: nat): Option<Finding> requires k < |ts| {
    match ts[k]
    case Name(word, _) => if word in g.nonCall || (word in g.safe && !IsDotted(ts, k)) then None else Some(Calls(Some(word)))
    case Closer(_, _) => Some(Calls(None))
    case _ => None
  }

  function Judge(g: Guard, u: Unicode, ts: seq<Tok>, k: nat): Option<Finding> requires k < |ts| {
    match ts[k]
    case Text(_, prefix, closed, _) =>
      if prefix.Some? && u.lower(prefix.value) in g.prefixes then Some(Interpolates) else if !closed then Some(Unterminated) else None
    case Open(_) => if k > 0 then Callee(g, ts, k - 1) else None
    case Run(text, _) => (var op := Assignment(g.assign, text); if op.Some? then Some(Assigns(op.value)) else None)
    case _ => None
  }

  ghost predicate FirstAt(g: Guard, u: Unicode, ts: seq<Tok>, k: nat, r: Option<Finding>) {
    k < |ts| && Judge(g, u, ts, k) == r && forall j | 0 <= j < k :: Judge(g, u, ts, j) == None
  }

  /** r is the first finding of the tokens. */
  ghost predicate IsFirst(g: Guard, u: Unicode, ts: seq<Tok>, r: Option<Finding>) {
    && (r == None ==> forall k | 0 <= k < |ts| :: Judge(g, u, ts, k) == None)
    && (r != None ==> exists k: nat :: FirstAt(g, u, ts, k, r))
  }

  lemma JudgeLocal(g: Guard, u: Unicode, ts: seq<Tok>, more: seq<Tok>, k: nat)
    requires k < |ts|
    ensures Judge(g, u, ts + more, k) == Judge(g, u, ts, k)
  {
    if k > 0 { assert (ts + more)[k - 1] == ts[k - 1]; }
  }

  // ------------------------------------------------------- what the scan keeps

  datatype Kind = OtherKind | NameKind | CloserKind

  /** The kind of the previous token, the previous identifier, whether it followed
      a ".", and the last character that was no space. */
  datatype Kept = Kept(prev: Kind, name: string, dotted: bool, last: char)

  function Keep(k: Kept, t: Tok): Kept {
    match t
    case Name(word, _) => Kept(NameKind, word, k.last == '.', if word == "" then '\0' else word[|word| - 1])
    case Text(q, _, _, _) => k.(prev := OtherKind, last := q)
    case Number(c, _) => k.(prev := OtherKind, last := c)
    case Open(_) => k.(prev := OtherKind, last := '(')
    case Closer(c, _) => k.(prev := CloserKind, last := c)
    case Run(text, _) => k.(prev := OtherKind, last := if text == "" then '\0' else text[0])
    case Other(c, _) => k.(prev := OtherKind, last := c)
  }

  function Summary(ts: seq<Tok>): Kept {
    if ts == [] then Kept(OtherKind, "", false, '\0') else Keep(Summary(ts[..|ts| - 1]), ts[|ts| - 1])
  }

  lemma SummaryStep(ts: seq<Tok>, t: Tok)
    ensures Summary(ts + [t]) == Keep(Summary(ts), t)
  {
    assert (ts + [t])[..|ts|] == ts;
  }

  /** What a "(" calls, of what the scan keeps. */
  function CalledBy(g: Guard, k: Kept): Option<Finding> {
    match k.prev
    case NameKind => if k.name in g.nonCall || (k.name in g.safe && !k.dotted) then None else Some(Calls(Some(k.name)))
    case CloserKind => Some(Calls(None))
    case OtherKind => None
  }

  /** No token but "." and a string quoted with it ends in ".". */
  predicate Formed(u: Unicode, t: Tok) {
    match t
    case Name(word, _) => word != "" && IsIdentPart(u, word[|word| - 1])
    case Number(c, _) => '0' <= c <= '9'
    case Closer(c, _) => c == ')' || c == ']'
    case Run(text, _) => text != "" && text[0] in OP_CHARS
    case _ => true
  }

  ghost predicate AllFormed(u: Unicode, ts: seq<Tok>) { forall t | t in ts :: Formed(u, t) }

  lemma LastIsDot(u: Unicode, ts: seq<Tok>)
    requires UnicodeOk(u) && AllFormed(u, ts)
    ensures Summary(ts).last == '.' <==>
              ts != [] && var t := ts[|ts| - 1]; (t.Other? && t.c == '.') || (t.Text? && t.quote == '.')
  {
    if ts != [] { assert ts[|ts| - 1] in ts; }
  }

  lemma NameIsKept(u: Unicode, ts: seq<Tok>)
    requires UnicodeOk(u) && AllFormed(u, ts) && ts != [] && ts[|ts| - 1].Name?
    ensures Summary(ts).prev == NameKind && Summary(ts).name == ts[|ts| - 1].word
    ensures Summary(ts).dotted <==> IsDotted(ts, |ts| - 1)
  {
    var before := ts[..|ts| - 1];
    assert AllFormed(u, before);
    LastIsDot(u, before);
    if before != [] { assert before[|before| - 1] == ts[|ts| - 2]; }
  }

  /** The scan's memory of the previous tokens answers what the judgement asks of
      the token before. */
  lemma CalleeIsKept(g: Guard, u: Unicode, ts: seq<Tok>)
    requires UnicodeOk(u) && AllFormed(u, ts)
    ensures CalledBy(g, Summary(ts)) == if ts == [] then None else Callee(g, ts, |ts| - 1)
  {
    if ts != [] && ts[|ts| - 1].Name? { NameIsKept(u, ts); }
  }

  /** No token shows anything, one after the other. */
  ghost predicate SoFar(g: Guard, u: Unicode, ts: seq<Tok>) {
    ts == [] || (SoFar(g, u, ts[..|ts| - 1]) && Judge(g, u, ts, |ts| - 1) == None && Formed(u, ts[|ts| - 1]))
  }

  lemma {:induction false} SoFarClean(g: Guard, u: Unicode, ts: seq<Tok>)
    requires SoFar(g, u, ts)
    ensures AllFormed(u, ts) && forall k | 0 <= k < |ts| :: Judge(g, u, ts, k) == None
  {
    if ts != [] {
      var n := |ts| - 1;
      SoFarClean(g, u, ts[..n]);
      assert ts[..n] + [ts[n]] == ts;
      forall k | 0 <= k < n ensures Judge(g, u, ts, k) == None { JudgeLocal(g, u, ts[..n], [ts[n]], k); }
    }
  }

  /** Where a scan is, nothing found so far. */
  ghost predicate At(all: seq<Tok>, g: Guard, u: Unicode, rs: string, ts: seq<Tok>, pos: nat, kept: Kept) {
    && UnicodeOk(u) && pos <= |rs| && all == ts + Tokens(g, u, rs, pos)
    && SoFar(g, u, ts) && kept == Summary(ts)
  }

  lemma TokenFormed(g: Guard, u: Unicode, rs: string, i: nat)
    requires i < |rs|
    ensures Formed(u, TokenAt(g, u, rs, i))
  {
    WordsEnd(u, rs, i + 1);
  }

  lemma {:induction false} WordsEnd(u: Unicode, rs: string, i: nat)
    requires i <= |rs|
    ensures forall k | i <= k < WordEnd(u, rs, i) :: IsIdentPart(u, rs[k])
    decreases |rs| - i
  {
    if i < |rs| && IsIdentPart(u, rs[i]) { WordsEnd(u, rs, i + 1); }
  }

  /** The token at pos shows nothing. */
  lemma Took(all: seq<Tok>, g: Guard, u: Unicode, rs: string, ts: seq<Tok>, pos: nat, kept: Kept)
    requires At(all, g, u, rs, ts, pos, kept) && pos < |rs| && !u.space(rs[pos])
    requires Judge(g, u, ts + [TokenAt(g, u, rs, pos)], |ts|) == None
    ensures var t := TokenAt(g, u, rs, pos); At(all, g, u, rs, ts + [t], t.end, Keep(kept, t))
  {
    var t := TokenAt(g, u, rs, pos);
    assert (ts + [t])[|ts|] == t && (ts + [t])[..|ts|] == ts;
    assert t.Text? ==> t.closed;
    assert Tokens(g, u, rs, pos) == [t] + Tokens(g, u, rs, t.end);
    TokenFormed(g, u, rs, pos);
    SummaryStep(ts, t);
  }

  /** The scan finds r in the token at pos. */
  ghost predicate Finds(g: Guard, u: Unicode, rs: string, ts: seq<Tok>, pos: nat, r: Option<Finding>) {
    pos < |rs| && !u.space(rs[pos]) && Judge(g, u, ts + [TokenAt(g, u, rs, pos)], |ts|) == r
  }

  lemma FoundFirst(all: seq<Tok>, g: Guard, u: Unicode, rs: string, ts: seq<Tok>, pos: nat, kept: Kept, r: Option<Finding>)
    requires At(all, g, u, rs, ts, pos, kept) && Finds(g, u, rs, ts, pos, r) && r != None
    ensures IsFirst(g, u, all, r)
  {
    var t := TokenAt(g, u, rs, pos);
    var rest := if t.Text? && !t.closed then [] else Tokens(g, u, rs, t.end);
    assert Tokens(g, u, rs, pos) == [t] + rest;
    FirstIs(g, u, all, ts, t, rest, r);
  }

  lemma FirstIs(g: Guard, u: Unicode, all: seq<Tok>, ts: seq<Tok>, t: Tok, rest: seq<Tok>, r: Option<Finding>)
    requires all == ts + ([t] + rest) && SoFar(g, u, ts) && Judge(g, u, ts + [t], |ts|) == r && r != None
    ensures IsFirst(g, u, all, r)
  {
    assert all == (ts + [t]) + rest && all == ts + ([t] + rest);
    JudgeLocal(g, u, ts + [t], rest, |ts|);
    SoFarClean(g, u, ts);
    forall j | 0 <= j < |ts| ensures Judge(g, u, all, j) == None { JudgeLocal(g, u, ts, [t] + rest, j); }
    assert FirstAt(g, u, all, |ts|, r);
  }

  // The token at pos, as its first character says; and what it shows.

  lemma SpaceIsSkipped(all: seq<Tok>, g: Guard, u: Unicode, rs: string, ts: seq<Tok>, pos: nat, kept: Kept)
    requires At(all, g, u, rs, ts, pos, kept) && pos < |rs| && u.space(rs[pos])
    ensures At(all, g, u, rs, ts, pos + 1, kept)
  {}

  lemma TextHere(all: seq<Tok>, g: Guard, u: Unicode, rs: string, ts: seq<Tok>, pos: nat, kept: Kept)
    requires At(all, g, u, rs, ts, pos, kept) && pos < |rs| && !u.space(rs[pos]) && rs[pos] in g.quotes
    ensures var t, n := TextAt(rs, pos, None), Quotes(rs, pos);
      match TextEnd(rs, pos + n, rs[pos], n)
      case None => Finds(g, u, rs, ts, pos, Some(Unterminated))
      case Some(end) => t.end == end && At(all, g, u, rs, ts + [t], end, kept.(prev := OtherKind, last := rs[pos]))
  {
    assert TokenAt(g, u, rs, pos) == TextAt(rs, pos, None);
    assert (ts + [TextAt(rs, pos, None)])[|ts|] == TextAt(rs, pos, None);
    if TextAt(rs, pos, None).closed { Took(all, g, u, rs, ts, pos, kept); }
  }

  /** The name from pos to end leads on. */
  ghost predicate WordLeads(all: seq<Tok>, g: Guard, u: Unicode, rs: string, ts: seq<Tok>, pos: nat, kept: Kept, end: nat) {
    && pos < end <= |rs|
    && At(all, g, u, rs, ts + [Name(rs[pos..end], end)], end, Kept(NameKind, rs[pos..end], kept.last == '.', rs[end - 1]))
  }

  /** What the string at at, after the prefix from pos, shows or leads to. */
  ghost predicate PrefixShows(all: seq<Tok>, g: Guard, u: Unicode, rs: string, ts: seq<Tok>, pos: nat, kept: Kept, at: nat) {
    && pos < at < |rs|
    && var word, t, n := rs[pos..at], TextAt(rs, at, Some(rs[pos..at])), Quotes(rs, at);
       if u.lower(word) in g.prefixes then Finds(g, u, rs, ts, pos, Some(Interpolates))
       else match TextEnd(rs, at + n, rs[at], n)
            case None => Finds(g, u, rs, ts, pos, Some(Unterminated))
            case Some(end) => t.end == end && At(all, g, u, rs, ts + [t], end, kept.(prev := OtherKind, last := rs[at]))
  }

  lemma WordHere(all: seq<Tok>, g: Guard, u: Unicode, rs: string, ts: seq<Tok>, pos: nat, kept: Kept)
    requires At(all, g, u, rs, ts, pos, kept) && pos < |rs| && !u.space(rs[pos]) && rs[pos] !in g.quotes && IsIdentStart(u, rs[pos])
    requires var end := WordEnd(u, rs, pos + 1); !(end < |rs| && rs[end] in g.quotes)
    ensures WordLeads(all, g, u, rs, ts, pos, kept, WordEnd(u, rs, pos + 1))
  {
    var end := WordEnd(u, rs, pos + 1);
    assert TokenAt(g, u, rs, pos) == Name(rs[pos..end], end);
    assert (ts + [Name(rs[pos..end], end)])[|ts|] == Name(rs[pos..end], end);
    Took(all, g, u, rs, ts, pos, kept);
  }

  lemma PrefixedHere(all: seq<Tok>, g: Guard, u: Unicode, rs: string, ts: seq<Tok>, pos: nat, kept: Kept)
    requires At(all, g, u, rs, ts, pos, kept) && pos < |rs| && !u.space(rs[pos]) && rs[pos] !in g.quotes && IsIdentStart(u, rs[pos])
    requires var end := WordEnd(u, rs, pos + 1); end < |rs| && rs[end] in g.quotes
    ensures PrefixShows(all, g, u, rs, ts, pos, kept, WordEnd(u, rs, pos + 1))
  {
    var at := WordEnd(u, rs, pos + 1);
    var t := TextAt(rs, at, Some(rs[pos..at]));
    assert TokenAt(g, u, rs, pos) == t;
    assert (ts + [t])[|ts|] == t;
    if u.lower(rs[pos..at]) !in g.prefixes && t.closed { Took(all, g, u, rs, ts, pos, kept); }
  }

  /** Neither space, string nor name. */
  predicate Sign(g: Guard, u: Unicode, c: char) { !u.space(c) && c !in g.quotes && !IsIdentStart(u, c) }

  lemma NumberHere(all: seq<Tok>, g: Guard, u: Unicode, rs: string, ts: seq<Tok>, pos: nat, kept: Kept)
    requires At(all, g, u, rs, ts, pos, kept) && pos < |rs| && Sign(g, u, rs[pos]) && '0' <= rs[pos] <= '9'
    ensures var end := NumberEnd(u, rs, pos + 1);
      At(all, g, u, rs, ts + [Number(rs[pos], end)], end, kept.(prev := OtherKind, last := rs[pos]))
  {
    var t := Number(rs[pos], NumberEnd(u, rs, pos + 1));
    assert TokenAt(g, u, rs, pos) == t;
    assert (ts + [t])[|ts|] == t;
    Took(all, g, u, rs, ts, pos, kept);
  }

  lemma OpenHere(all: seq<Tok>, g: Guard, u: Unicode, rs: string, ts: seq<Tok>, pos: nat, kept: Kept)
    requires At(all, g, u, rs, ts, pos, kept) && pos < |rs| && Sign(g, u, rs[pos]) && rs[pos] == '('
    ensures if CalledBy(g, kept).Some? then Finds(g, u, rs, ts, pos, CalledBy(g, kept))
            else At(all, g, u, rs, ts + [Open(pos + 1)], pos + 1, kept.(prev := OtherKind, last := '('))
  {
    var t := Open(pos + 1);
    assert TokenAt(g, u, rs, pos) == t;
    SoFarClean(g, u, ts);
    CalleeIsKept(g, u, ts);
    CallJudged(g, u, ts, t);
    if CalledBy(g, kept).None? { Took(all, g, u, rs, ts, pos, kept); }
  }

  lemma CallJudged(g: Guard, u: Unicode, ts: seq<Tok>, t: Tok)
    requires t.Open?
    ensures Judge(g, u, ts + [t], |ts|) == if ts == [] then None else Callee(g, ts, |ts| - 1)
  {
    var us := ts + [t];
    assert us[|ts|] == t;
    if ts != [] {
      var k := |ts| - 1;
      assert us[k] == ts[k];
      if k > 0 { assert us[k - 1] == ts[k - 1]; }
    }
  }

  lemma CloserHere(all: seq<Tok>, g: Guard, u: Unicode, rs: string, ts: seq<Tok>, pos: nat, kept: Kept)
    requires At(all, g, u, rs, ts, pos, kept) && pos < |rs| && Sign(g, u, rs[pos]) && rs[pos] in {')', ']'}
    ensures At(all, g, u, rs, ts + [Closer(rs[pos], pos + 1)], pos + 1, kept.(prev := CloserKind, last := rs[pos]))
  {
    var t := Closer(rs[pos], pos + 1);
    assert TokenAt(g, u, rs, pos) == t;
    assert (ts + [t])[|ts|] == t;
    Took(all, g, u, rs, ts, pos, kept);
  }

  lemma RunTok(g: Guard, u: Unicode, rs: string, pos: nat)
    requires pos < |rs| && Sign(g, u, rs[pos]) && rs[pos] in OP_CHARS
    ensures TokenAt(g, u, rs, pos) == Run(rs[pos..RunEnd(rs, pos + 1)], RunEnd(rs, pos + 1))
  {}

  lemma RunJudged(g: Guard, u: Unicode, ts: seq<Tok>, t: Tok)
    requires t.Run?
    ensures Judge(g, u, ts + [t], |ts|) == var op := Assignment(g.assign, t.text); if op.Some? then Some(Assigns(op.value)) else None
  {
    assert (ts + [t])[|ts|] == t;
  }

  /** What a run of operator characters at pos shows, or leads to. */
  ghost predicate RunShows(all: seq<Tok>, g: Guard, u: Unicode, rs: string, ts: seq<Tok>, pos: nat, kept: Kept, run: string) {
    && pos + |run| <= |rs| && run != ""
    && match Assignment(g.assign, run)
       case Some(op) => Finds(g, u, rs, ts, pos, Some(Assigns(op)))
       case None => At(all, g, u, rs, ts + [Run(run, pos + |run|)], pos + |run|, kept.(prev := OtherKind, last := run[0]))
  }

  lemma RunHere(all: seq<Tok>, g: Guard, u: Unicode, rs: string, ts: seq<Tok>, pos: nat, kept: Kept)
    requires At(all, g, u, rs, ts, pos, kept) && pos < |rs| && Sign(g, u, rs[pos]) && rs[pos] in OP_CHARS
    ensures RunShows(all, g, u, rs, ts, pos, kept, rs[pos..RunEnd(rs, pos + 1)])
  {
    var end := RunEnd(rs, pos + 1);
    var t := Run(rs[pos..end], end);
    RunTok(g, u, rs, pos);
    RunJudged(g, u, ts, t);
    if Assignment(g.assign, t.text).None? { Took(all, g, u, rs, ts, pos, kept); }
  }

  lemma OtherHere(all: seq<Tok>, g: Guard, u: Unicode, rs: string, ts: seq<Tok>, pos: nat, kept: Kept)
    requires At(all, g, u, rs, ts, pos, kept) && pos < |rs| && Sign(g, u, rs[pos])
    requires !('0' <= rs[pos] <= '9') && rs[pos] !in {'(', ')', ']'} && rs[pos] !in OP_CHARS
    ensures At(all, g, u, rs, ts + [Other(rs[pos], pos + 1)], pos + 1, kept.(prev := OtherKind, last := rs[pos]))
  {
    var t := Other(rs[pos], pos + 1);
    assert TokenAt(g, u, rs, pos) == t;
    assert (ts + [t])[|ts|] == t;
    Took(all, g, u, rs, ts, pos, kept);
  }

  // ----------------------------------------------------------------- scanner

  /** Walks an expression's characters. */
  class Scanner {
    const g: Guard
    const u: Unicode
    const rs: string
    ghost const all: seq<Tok>
    var i: nat
    var prev: Kind
    /** The previous identifier, and whether it followed a ".". */
    var name: string
    var dotted: bool
    /** The last character that wasn't a space. */
    var last: char
    ghost var toks: seq<Tok>

    constructor (g: Guard, u: Unicode, rs: string)
      requires UnicodeOk(u)
      ensures Valid() && this.g == g && this.u == u && this.rs == rs && toks == [] && i == 0 && all == Tokens(g, u, rs, 0)
    {
      this.g, this.u, this.rs, all := g, u, rs, Tokens(g, u, rs, 0);
      i, prev, name, dotted, last, toks := 0, OtherKind, "", false, '\0', [];
    }

    ghost predicate Valid() reads this { At(all, g, u, rs, toks, i, Kept(prev, name, dotted, last)) }

    /** The token at p after ts was read, and shows nothing; or it shows r. */
    ghost predicate Reads(r: Option<Finding>, ts: seq<Tok>, p: nat) reads this {
      if r == None then Valid() && i > p else Finds(g, u, rs, ts, p, r)
    }

    /** Reading a token t, to its end, leads on. */
    ghost predicate Leads(t: Tok) reads this {
      At(all, g, u, rs, toks + [t], t.end, Keep(Kept(prev, name, dotted, last), t))
    }

    /** Skips the string at i; i may pass the end when it does not end. */
    method SkipString() returns (ok: bool)
      requires i < |rs|
      modifies this`i, this`prev, this`last
      ensures ok <==> TextEnd(rs, old(i) + Quotes(rs, old(i)), rs[old(i)], Quotes(rs, old(i))).Some?
      ensures ok ==> Some(i) == TextEnd(rs, old(i) + Quotes(rs, old(i)), rs[old(i)], Quotes(rs, old(i)))
      ensures ok ==> prev == OtherKind && last == rs[old(i)]
    {
      var q, n := rs[i], Quotes(rs, i);
      i := i + n;
      while i < |rs|
        invariant TextEnd(rs, i, q, n) == TextEnd(rs, old(i) + n, q, n)
        decreases |rs| - i
      {
        if rs[i] == '\\' {
          i := i + 1;
        } else {
          var closes := ClosesAt(q, n);
          if closes {
            i := i + n;
            prev, last := OtherKind, q;
            return true;
          }
        }
        i := i + 1;
      }
      ok := false;
    }

    /** Whether n quotes q start at i. */
    method ClosesAt(q: char, n: nat) returns (b: bool)
      requires i < |rs|
      ensures b <==> Closes(rs, i, q, n)
    {
      if i + n > |rs| { return false; }
      for k := 0 to n
        invariant forall j | i <= j < i + k :: rs[j] == q
      {
        if rs[i + k] != q { return false; }
      }
      b := true;
    }

    method SkipNumber()
      requires i < |rs| && '0' <= rs[i] <= '9'
      modifies this`i, this`prev
      ensures i == NumberEnd(u, rs, old(i) + 1) && prev == OtherKind
    {
      i := i + 1;
      while i < |rs| && (IsIdentPart(u, rs[i]) || rs[i] == '.')
        invariant i <= |rs| && NumberEnd(u, rs, i) == NumberEnd(u, rs, old(i) + 1)
      {
        i := i + 1;
      }
      prev := OtherKind;
    }

    /** Scans a run of operator characters. */
    method Operator() returns (run: string)
      requires i < |rs| && rs[i] in OP_CHARS
      modifies this`i, this`prev
      ensures i == RunEnd(rs, old(i) + 1) && run == rs[old(i)..i] && prev == OtherKind
    {
      var start := i;
      i := i + 1;
      while i < |rs| && rs[i] in OP_CHARS
        invariant start < i <= |rs| && RunEnd(rs, i) == RunEnd(rs, start + 1)
      {
        i := i + 1;
      }
      prev := OtherKind;
      run := rs[start..i];
    }

    method WordFrom() returns (end: nat)
      requires i < |rs|
      ensures end == WordEnd(u, rs, i + 1)
    {
      end := i + 1;
      while end < |rs| && IsIdentPart(u, rs[end])
        invariant i < end <= |rs| && WordEnd(u, rs, end) == WordEnd(u, rs, i + 1)
      {
        end := end + 1;
      }
    }

    /** A string, or the string after a prefix, that started at p. */
    method ReadText(ghost p: nat, ghost prefix: Option<string>) returns (r: Option<Finding>)
      requires i < |rs| && p <= i
      requires match TextEnd(rs, i + Quotes(rs, i), rs[i], Quotes(rs, i))
               case None => Finds(g, u, rs, toks, p, Some(Unterminated))
               case Some(end) => At(all, g, u, rs, toks + [TextAt(rs, i, prefix)], end, Kept(OtherKind, name, dotted, rs[i]))
      modifies this
      ensures Reads(r, old(toks), p)
    {
      ghost var t := TextAt(rs, i, prefix);
      var ok := SkipString();
      if !ok { return Some(Unterminated); }
      toks := toks + [t];
      r := None;
    }

    /** A name, or a prefix and its string, starts here. */
    ghost predicate AtName() reads this { Valid() && i < |rs| && !u.space(rs[i]) && rs[i] !in g.quotes && IsIdentStart(u, rs[i]) }

    /** Scans a name, or a string prefix and its string. */
    method Identifier() returns (r: Option<Finding>)
      requires AtName()
      modifies this
      ensures Reads(r, old(toks), old(i))
    {
      var end := WordFrom();
      if end < |rs| && rs[end] in g.quotes {
        r := ReadPrefixed(end);
      } else {
        ReadWord(end);
        r := None;
      }
    }

    method ReadWord(end: nat)
      requires AtName() && end == WordEnd(u, rs, i + 1) && !(end < |rs| && rs[end] in g.quotes)
      modifies this
      ensures Valid() && i == end > old(i)
    {
      WordHere(all, g, u, rs, toks, i, Kept(prev, name, dotted, last));
      Word(end);
    }

    method Word(end: nat)
      requires WordLeads(all, g, u, rs, toks, i, Kept(prev, name, dotted, last), end)
      modifies this
      ensures Valid() && i == end > old(i)
    {
      var word := rs[i..end];
      i := end;
      prev, name, dotted, last := NameKind, word, last == '.', rs[i - 1];
      toks := toks + [Name(word, end)];
    }

    method ReadPrefixed(end: nat) returns (r: Option<Finding>)
      requires AtName() && end == WordEnd(u, rs, i + 1) && end < |rs| && rs[end] in g.quotes
      modifies this
      ensures Reads(r, old(toks), old(i))
    {
      PrefixedHere(all, g, u, rs, toks, i, Kept(prev, name, dotted, last));
      r := Prefixed(end);
    }

    method Prefixed(end: nat) returns (r: Option<Finding>)
      requires PrefixShows(all, g, u, rs, toks, i, Kept(prev, name, dotted, last), end)
      modifies this
      ensures Reads(r, old(toks), old(i))
    {
      var word := rs[i..end];
      if u.lower(word) in g.prefixes { return Some(Interpolates); }
      ghost var start := i;
      i := end;
      prev, last := OtherKind, rs[i];
      r := ReadText(start, Some(word));
    }

    /** Scans one token, or skips a space. */
    method Step() returns (r: Option<Finding>)
      requires Valid() && i < |rs|
      modifies this
      ensures Reads(r, old(toks), old(i))
    {
      var c := rs[i];
      if u.space(c) {
        SpaceIsSkipped(all, g, u, rs, toks, i, Kept(prev, name, dotted, last));
        i := i + 1;
        r := None;
      } else if c in g.quotes {
        TextHere(all, g, u, rs, toks, i, Kept(prev, name, dotted, last));
        r := ReadText(i, None);
      } else if IsIdentStart(u, c) {
        r := Identifier();
      } else {
        r := ReadSign();
      }
    }

    method ReadSign() returns (r: Option<Finding>)
      requires Valid() && i < |rs| && Sign(g, u, rs[i])
      modifies this
      ensures Reads(r, old(toks), old(i))
    {
      var c := rs[i];
      if c == '(' {
        r := Parenthesis();
      } else if c in OP_CHARS && !('0' <= c <= '9') && c != ')' && c != ']' {
        r := ReadRun();
      } else {
        ReadOther();
        r := None;
      }
    }

    /** Reads a "(", which calls something or does not. */
    method Parenthesis() returns (r: Option<Finding>)
      requires Valid() && i < |rs| && Sign(g, u, rs[i]) && rs[i] == '('
      modifies this
      ensures Reads(r, old(toks), old(i))
    {
      OpenHere(all, g, u, rs, toks, i, Kept(prev, name, dotted, last));
      r := CalledBy(g, Kept(prev, name, dotted, last));
      if r == None { One(OtherKind, Open(i + 1)); }
    }

    /** Reads one character. */
    method One(kind: Kind, ghost t: Tok)
      requires i < |rs| && At(all, g, u, rs, toks + [t], i + 1, Kept(kind, name, dotted, rs[i]))
      modifies this
      ensures Valid() && i == old(i) + 1
    {
      last := rs[i];
      i := i + 1;
      prev := kind;
      toks := toks + [t];
    }

    method ReadRun() returns (r: Option<Finding>)
      requires Valid() && i < |rs| && Sign(g, u, rs[i]) && rs[i] in OP_CHARS
      modifies this
      ensures Reads(r, old(toks), old(i))
    {
      RunHere(all, g, u, rs, toks, i, Kept(prev, name, dotted, last));
      r := TakeRun();
    }

    method TakeRun() returns (r: Option<Finding>)
      requires i < |rs| && rs[i] in OP_CHARS
      requires RunShows(all, g, u, rs, toks, i, Kept(prev, name, dotted, last), rs[i..RunEnd(rs, i + 1)])
      modifies this
      ensures Reads(r, old(toks), old(i))
    {
      var c := rs[i];
      var run := Operator();
      var op := Assignment(g.assign, run);
      if op.Some? { return Some(Assigns(op.value)); }
      last := c;
      toks := toks + [Run(run, i)];
      r := None;
    }

    method ReadOther()
      requires Valid() && i < |rs| && Sign(g, u, rs[i]) && rs[i] != '('
      requires rs[i] in OP_CHARS ==> '0' <= rs[i] <= '9' || rs[i] in {')', ']'}
      modifies this
      ensures Reads(None, old(toks), old(i))
    {
      var c := rs[i];
      if '0' <= c <= '9' {
        ReadNumber();
      } else if c == ')' || c == ']' {
        CloserHere(all, g, u, rs, toks, i, Kept(prev, name, dotted, last));
        One(CloserKind, Closer(c, i + 1));
      } else {
        ReadRest();
      }
    }

    method ReadNumber()
      requires Valid() && i < |rs| && Sign(g, u, rs[i]) && '0' <= rs[i] <= '9'
      modifies this
      ensures Valid() && i > old(i)
    {
      NumberHere(all, g, u, rs, toks, i, Kept(prev, name, dotted, last));
      var c := rs[i];
      SkipNumber();
      last := c;
      toks := toks + [Number(c, i)];
    }

    method ReadRest()
      requires Valid() && i < |rs| && Sign(g, u, rs[i]) && !('0' <= rs[i] <= '9') && rs[i] !in {'(', ')', ']'} && rs[i] !in OP_CHARS
      modifies this
      ensures Valid() && i > old(i)
    {
      OtherHere(all, g, u, rs, toks, i, Kept(prev, name, dotted, last));
      One(OtherKind, Other(rs[i], i + 1));
    }
  }

  /** Reports the first thing in an expression that can change the program. */
  method Check(g: Guard, u: Unicode, expr: string) returns (r: Option<Finding>)
    requires UnicodeOk(u)
    ensures IsFirst(g, u, Tokens(g, u, expr, 0), r)
  {
    var s := new Scanner(g, u, expr);
    while s.i < |expr|
      invariant s.g == g && s.u == u && s.rs == expr && s.all == Tokens(g, u, expr, 0) && s.Valid()
      decreases |expr| - s.i
    {
      ghost var toks, i, kept := s.toks, s.i, Kept(s.prev, s.name, s.dotted, s.last);
      r := s.Step();
      if r != None {
        FoundFirst(s.all, g, u, expr, toks, i, kept, r);
        return;
      }
    }
    r := None;
    SoFarClean(g, u, s.toks);
    assert s.toks == Tokens(g, u, expr, 0);
  }

  // ----------------------------------------------------------- what it means

  /** A call is found only after a closer, or a name that is not exempt; a safe
      name after a "." is not exempt. */
  lemma CallsWhen(g: Guard, u: Unicode, ts: seq<Tok>, k: nat)
    requires 0 < k < |ts| && ts[k].Open?
    ensures Judge(g, u, ts, k) != None <==>
              || ts[k - 1].Closer?
              || (ts[k - 1].Name? && ts[k - 1].word !in g.nonCall && (ts[k - 1].word !in g.safe || IsDotted(ts, k - 1)))
  {}
}