/** Templates of an adapter's manifest (internal/adapters/template.go): strings
    with ${name} references, at any nesting, filled from variables. */
module Template {
  import opened Wrappers
  import opened Text

  /** A piece of a template string: literal text, or a reference. */
  datatype Part = Lit(text: string) | Ref(name: string)

  // ------------------------------------------------------------------ strings

  predicate IsLetter(c: char) { 'a' <= c <= 'z' || 'A' <= c <= 'Z' }

  predicate IsWord(s: string) {
    s != "" && IsLetter(s[0]) && forall i | 0 <= i < |s| :: IsLetter(s[i]) || '0' <= s[i] <= '9'
  }

  /** One word, or two with a dot between them. */
  predicate IsVarName(s: string) {
    IsWord(s) || exists i | 0 < i < |s| :: s[i] == '.' && IsWord(s[..i]) && IsWord(s[i + 1..])
  }

  /** Where a reference first starts, from i on. */
  function RefStart(s: string, i: nat): (at: Option<nat>)
    ensures at.Some? ==> i <= at.value && at.value + 1 < |s| && s[at.value] == '$' && s[at.value + 1] == '{'
    ensures at.Some? ==> forall k | i <= k < at.value :: !(s[k] == '$' && s[k + 1] == '{')
    ensures at.None? ==> forall k | i <= k < |s| - 1 :: !(s[k] == '$' && s[k + 1] == '{')
    decreases |s| - i
  {
    if i + 1 >= |s| then None
    else if s[i] == '$' && s[i + 1] == '{' then Some(i)
    else RefStart(s, i + 1)
  }

  function BraceEnd(s: string, i: nat): (at: Option<nat>)
    ensures at.Some? ==> i <= at.value < |s| && s[at.value] == '}' && forall k | i <= k < at.value :: s[k] != '}'
    ensures at.None? ==> forall k | i <= k < |s| :: s[k] != '}'
    decreases |s| - i
  {
    if i >= |s| then None else if s[i] == '}' then Some(i) else BraceEnd(s, i + 1)
  }

  predicate HasRef(s: string) { exists k | 0 <= k < |s| - 1 :: s[k] == '$' && s[k + 1] == '{' }

  // ------------------------------------------------------- printing, scanning

  function PrintPart(p: Part): string {
    match p
    case Lit(text) => text
    case Ref(name) => "${" + name + "}"
  }

  function Print(parts: seq<Part>): string {
    if parts == [] then "" else PrintPart(parts[0]) + Print(parts[1..])
  }

  /** Literals are not empty, hold no "${" and are never adjacent; references are
      variable names. */
  ghost predicate Canonical(parts: seq<Part>) {
    && (forall i | 0 <= i < |parts| ::
          match parts[i]
          case Lit(text) => text != "" && !HasRef(text)
          case Ref(name) => IsVarName(name))
    && (forall i | 0 <= i < |parts| - 1 :: parts[i].Ref? || parts[i + 1].Ref?)
  }

  /** The pieces of a string; none when a reference is not closed or not a name. */
  function ScanOf(s: string): (r: Option<seq<Part>>)
    decreases |s|
  {
    var start := RefStart(s, 0);
    if start.None? then Some(if s == "" then [] else [Lit(s)])
    else
      var i := start.value;
      var brace := BraceEnd(s, i);
      if brace.None? || !IsVarName(s[i + 2..brace.value]) then None
      else
        var rest := ScanOf(s[brace.value + 1..]);
        if rest.None? then None
        else Some(Pieces(s[..i], s[i + 2..brace.value], rest.value))
  }

  method Scan(s0: string) returns (r: Option<seq<Part>>)
    ensures r == ScanOf(s0)
    ensures r.Some? ==> Canonical(r.value) && Print(r.value) == s0
    ensures r.None? ==> forall parts | Canonical(parts) :: Print(parts) != s0
  {
    ScanMeans(s0);
    r := ScanLoop(s0);
  }

  /** What a scan gives that found these parts before what is left. */
  function Then(parts: seq<Part>, rest: Option<seq<Part>>): Option<seq<Part>> {
    if rest.None? then None else Some(parts + rest.value)
  }

  lemma ThenPieces(parts: seq<Part>, text: string, name: string, rest: Option<seq<Part>>)
    ensures Then(parts, if rest.None? then None else Some(Pieces(text, name, rest.value)))
            == Then((if text == "" then parts else parts + [Lit(text)]) + [Ref(name)], rest)
  {
    if rest.Some? {
      assert parts + Pieces(text, name, rest.value)
             == (if text == "" then parts else parts + [Lit(text)]) + [Ref(name)] + rest.value;
    }
  }

  method ScanLoop(s0: string) returns (r: Option<seq<Part>>)
    ensures r == ScanOf(s0)
  {
    var s, parts := s0, [];
    assert ScanOf(s0).Some? ==> [] + ScanOf(s0).value == ScanOf(s0).value;
    while true
      invariant ScanOf(s0) == Then(parts, ScanOf(s))
      decreases |s|
    {
      var start := RefStart(s, 0);
      if start.None? { break; }
      var i := start.value;
      var brace := BraceEnd(s, i);
      if brace.None? { return None; }
      var name := s[i + 2..brace.value];
      if !IsVarName(name) { return None; }
      ThenPieces(parts, s[..i], name, ScanOf(s[brace.value + 1..]));
      if i > 0 { parts := parts + [Lit(s[..i])]; }
      parts := parts + [Ref(name)];
      s := s[brace.value + 1..];
    }
    assert parts + [] == parts;
    if s != "" { parts := parts + [Lit(s)]; }
    r := Some(parts);
  }

  // --------------------------------------------------------- they are inverse

  lemma NamesHaveNoBrace(name: string)
    requires IsVarName(name)
    ensures name != "" && forall i | 0 <= i < |name| :: name[i] != '}' && name[i] != '$' && name[i] != '{'
  {
    if !IsWord(name) {
      var d :| 0 < d < |name| && name[d] == '.' && IsWord(name[..d]) && IsWord(name[d + 1..]);
      forall i | 0 <= i < |name| ensures name[i] != '}' && name[i] != '$' && name[i] != '{' {
        if i < d { assert name[i] == name[..d][i]; } else if i > d { assert name[i] == name[d + 1..][i - d - 1]; }
      }
    }
  }

  lemma CanonicalTail(parts: seq<Part>)
    requires Canonical(parts) && parts != []
    ensures Canonical(parts[1..])
  {
    var tail := parts[1..];
    forall i | 0 <= i < |tail| ensures tail[i] == parts[i + 1] {}
  }

  /** Literal text, a reference, and what follows. */
  function Pieces(text: string, name: string, tail: seq<Part>): seq<Part> {
    (if text == "" then [] else [Lit(text)]) + [Ref(name)] + tail
  }

  lemma PiecesPrint(text: string, name: string, tail: seq<Part>)
    ensures Print(Pieces(text, name, tail)) == text + "${" + name + "}" + Print(tail)
  {
    var more := [Ref(name)] + tail;
    assert more[1..] == tail;
    if text != "" {
      assert Pieces(text, name, tail) == [Lit(text)] + more;
      assert ([Lit(text)] + more)[1..] == more;
    } else {
      assert Pieces(text, name, tail) == more;
    }
  }

  lemma PiecesCanonical(text: string, name: string, tail: seq<Part>)
    requires !HasRef(text) && IsVarName(name) && Canonical(tail)
    ensures Canonical(Pieces(text, name, tail))
  {
    var parts := Pieces(text, name, tail);
    var n := |parts| - |tail|;
    assert parts[n..] == tail;
    forall i | n <= i < |parts| ensures parts[i] == tail[i - n] {}
  }

  lemma ScanSplits(s: string)
    requires ScanOf(s).Some? && RefStart(s, 0).Some?
    ensures var i := RefStart(s, 0).value; var brace := BraceEnd(s, i);
      && brace.Some? && i + 2 <= brace.value
      && var text, name, rest := s[..i], s[i + 2..brace.value], s[brace.value + 1..];
         !HasRef(text) && IsVarName(name) && s == text + "${" + name + "}" + rest
         && ScanOf(rest).Some? && ScanOf(s).value == Pieces(text, name, ScanOf(rest).value)
  {
    var i := RefStart(s, 0).value;
    var brace := BraceEnd(s, i);
    assert s[i] == '$' && s[i + 1] == '{';
    var text, name, rest := s[..i], s[i + 2..brace.value], s[brace.value + 1..];
    forall k | 0 <= k < |text| - 1 ensures !(text[k] == '$' && text[k + 1] == '{') {}
    assert s == s[..i] + s[i..i + 2] + s[i + 2..brace.value] + s[brace.value..brace.value + 1] + s[brace.value + 1..];
    assert s[i..i + 2] == "${" && s[brace.value..brace.value + 1] == "}";
  }

  /** Printing a successful scan gives the string back, in canonical pieces. */
  lemma {:induction false} ScanPrints(s: string)
    requires ScanOf(s).Some?
    ensures Canonical(ScanOf(s).value) && Print(ScanOf(s).value) == s
    decreases |s|
  {
    if RefStart(s, 0).None? {
      PrintsOne(s);
    } else {
      ScanSplits(s);
      var i := RefStart(s, 0).value;
      var end := BraceEnd(s, i).value;
      var rest := s[end + 1..];
      ScanPrints(rest);
      PiecesPrint(s[..i], s[i + 2..end], ScanOf(rest).value);
      PiecesCanonical(s[..i], s[i + 2..end], ScanOf(rest).value);
    }
  }

  lemma PrintsOne(text: string)
    ensures Print([Lit(text)]) == text
  {
    assert [Lit(text)][1..] == [];
  }

  lemma RefStartIs(s: string, at: nat)
    requires at + 1 < |s| && s[at] == '$' && s[at + 1] == '{' && forall k | 0 <= k < at :: !(s[k] == '$' && s[k + 1] == '{')
    ensures RefStart(s, 0) == Some(at)
  {}

  lemma BraceEndIs(s: string, i: nat, at: nat)
    requires i <= at < |s| && s[at] == '}' && forall k | i <= k < at :: s[k] != '}'
    ensures BraceEnd(s, i) == Some(at)
  {}

  /** A string that starts with literal text and then a reference. */
  lemma ScansOne(text: string, name: string, rest: string)
    requires !HasRef(text) && IsVarName(name)
    ensures var r := ScanOf(rest);
      ScanOf(text + "${" + name + "}" + rest) ==
        if r.None? then None else Some(Pieces(text, name, r.value))
  {
    var s := text + "${" + name + "}" + rest;
    var i, end := |text|, |text| + 2 + |name|;
    NamesHaveNoBrace(name);
    forall k | 0 <= k < i ensures !(s[k] == '$' && s[k + 1] == '{') {
      if k < i - 1 { assert s[k] == text[k] && s[k + 1] == text[k + 1]; }
    }
    RefStartIs(s, i);
    forall k | i <= k < end ensures s[k] != '}' {
      if k >= i + 2 { assert s[k] == name[k - i - 2]; }
    }
    BraceEndIs(s, i, end);
    assert s[i + 2..end] == name && s[end + 1..] == rest && s[..i] == text;
  }

  lemma ScansText(text: string)
    requires text != "" && !HasRef(text)
    ensures ScanOf(text) == Some([Lit(text)])
  {
    assert RefStart(text, 0) == None;
  }

  /** Scanning any printed canonical pieces gives those pieces. */
  lemma {:induction false} PrintScans(parts: seq<Part>)
    requires Canonical(parts)
    ensures ScanOf(Print(parts)) == Some(parts)
    decreases |parts|
  {
    if parts != [] && parts[0].Ref? {
      CanonicalTail(parts);
      PrintScans(parts[1..]);
      assert parts == Pieces("", parts[0].name, parts[1..]);
      PiecesPrint("", parts[0].name, parts[1..]);
      ScansOne("", parts[0].name, Print(parts[1..]));
    } else if |parts| == 1 {
      assert parts == [Lit(parts[0].text)];
      PrintsOne(parts[0].text);
      ScansText(parts[0].text);
    } else if |parts| > 1 {
      CanonicalTail(parts);
      CanonicalTail(parts[1..]);
      var rest := parts[1..][1..];
      PrintScans(rest);
      assert parts == Pieces(parts[0].text, parts[1].name, rest);
      PiecesPrint(parts[0].text, parts[1].name, rest);
      ScansOne(parts[0].text, parts[1].name, Print(rest));
    }
  }

  /** Both ways: a scan is the canonical pieces that print the string, and fails
      only when there are none. */
  lemma ScanMeans(s: string)
    ensures ScanOf(s).Some? ==> Canonical(ScanOf(s).value) && Print(ScanOf(s).value) == s
    ensures forall parts | Canonical(parts) && Print(parts) == s :: ScanOf(s) == Some(parts)
  {
    if ScanOf(s).Some? { ScanPrints(s); }
    forall parts | Canonical(parts) && Print(parts) == s ensures ScanOf(s) == Some(parts) { PrintScans(parts); }
  }

  // ------------------------------------------------------------------ values

  /** A JSON value; a list of strings and a map of strings are variables' own. */
  datatype Value = Null | Bool(b: bool) | Int(n: int) | Num(text: string) | Str(s: string) | Arr(items: seq<Value>)
                 | Obj(fields: map<string, Value>) | Strs(list: seq<string>) | StrMap(pairs: map<string, string>)

  type Vars = map<string, Value>

  /** A variable's value, when it is set. */
  function Lookup(vars: Vars, name: string): Option<Value> {
    if name !in vars then None
    else match vars[name]
         case Str(s) => if s == "" then None else Some(Str(s))
         case Strs(list) => if list == [] then None else Some(Strs(list))
         case StrMap(pairs) => if pairs == map[] then None else Some(StrMap(pairs))
         case v => Some(v)
  }

  /** The variable a string refers to, when it is exactly "${name}". */
  function ExactRef(s: string): (r: Option<string>)
    ensures r.Some? ==> IsVarName(r.value) && s == "${" + r.value + "}"
    ensures forall name | IsVarName(name) && s == "${" + name + "}" :: r == Some(name)
  {
    ScanMeans(s);
    ExactPrints();
    var parts := ScanOf(s);
    if parts.Some? && |parts.value| == 1 && parts.value[0].Ref? then
      assert parts.value == [Ref(parts.value[0].name)];
      Some(parts.value[0].name)
    else None
  }

  lemma ExactPrints()
    ensures forall name: string :: Print([Ref(name)]) == "${" + name + "}"
    ensures forall name: string | IsVarName(name) :: Canonical([Ref(name)])
  {
    forall name: string ensures Print([Ref(name)]) == "${" + name + "}" { assert [Ref(name)][1..] == []; }
  }

  // --------------------------------------------------- single-pass substitution

  /** A template with its references read once: values never are. */
  datatype Parsed = Exact(name: string) | Pieced(parts: seq<Part>) | List(items: seq<Parsed>) | Fields(fields: map<string, Parsed>) | Const(v: Value)

  function Parse(v: Value): Parsed {
    match v
    case Str(s) =>
      var parts := ScanOf(s);
      if parts.None? then Const(v)
      else if |parts.value| == 1 && parts.value[0].Ref? then Exact(parts.value[0].name)
      else Pieced(parts.value)
    case Arr(items) => List(seq(|items|, i requires 0 <= i < |items| => Parse(items[i])))
    case Obj(fields) => Fields(map k | k in fields :: Parse(fields[k]))
    case _ => Const(v)
  }

  function Unparse(p: Parsed): Value {
    match p
    case Exact(name) => Str("${" + name + "}")
    case Pieced(parts) => Str(Print(parts))
    case List(items) => Arr(seq(|items|, i requires 0 <= i < |items| => Unparse(items[i])))
    case Fields(fields) => Obj(map k | k in fields :: Unparse(fields[k]))
    case Const(v) => v
  }

  /** What a variable adds inside other text. */
  function Shown(vars: Vars, name: string): string {
    if name !in vars then ""
    else match vars[name]
         case Str(s) => s
         case Int(n) => Decimal(n)
         case _ => ""
  }

  function Joined(parts: seq<Part>, vars: Vars): string {
    if parts == [] then ""
    else Joined(parts[..|parts| - 1], vars) + PartText(parts[|parts| - 1], vars)
  }

  function PartText(p: Part, vars: Vars): string {
    match p
    case Lit(text) => text
    case Ref(name) => Shown(vars, name)
  }

  /** What a parsed template is filled with, on its own or as an object's field:
      nothing for an unset variable. */
  function Fill(p: Parsed, vars: Vars): Option<Value> decreases p, 0 {
    match p
    case Exact(name) => Lookup(vars, name)
    case Pieced(parts) => Some(Str(Joined(parts, vars)))
    case List(items) => Some(Arr(FillItems(items, vars)))
    case Fields(fields) => Some(Obj(map k | k in fields && Fill(fields[k], vars).Some? :: Fill(fields[k], vars).value))
    case Const(v) => Some(v)
  }

  function Strings(list: seq<string>): seq<Value> { seq(|list|, i requires 0 <= i < |list| => Str(list[i])) }

  /** ... and as an item of an array: a list variable adds its items. */
  function FillItem(p: Parsed, vars: Vars): seq<Value> decreases p, 1 {
    if p.Exact? && p.name in vars && vars[p.name].Strs? then Strings(vars[p.name].list)
    else
      var r := Fill(p, vars);
      if r.Some? then [r.value] else []
  }

  function FillItems(items: seq<Parsed>, vars: Vars): seq<Value> decreases items, 2 {
    if items == [] then []
    else FillItems(items[..|items| - 1], vars) + FillItem(items[|items| - 1], vars)
  }

  // ------------------------------------------------------------------ render

  method Interpolate(s: string, vars: Vars) returns (r: string)
    ensures r == var parts := ScanOf(s); if parts.None? then s else Joined(parts.value, vars)
  {
    var parts := Scan(s);
    if parts.None? { return s; }
    r := Join(parts.value, vars);
  }

  method Join(parts: seq<Part>, vars: Vars) returns (r: string)
    ensures r == Joined(parts, vars)
  {
    r := "";
    for i := 0 to |parts|
      invariant r == Joined(parts[..i], vars)
    {
      JoinedStep(parts, i, vars);
      match parts[i] {
        case Lit(text) => r := r + text;
        case Ref(name) => r := r + Shown(vars, name);
      }
    }
    assert parts[..|parts|] == parts;
  }

  lemma JoinedStep(parts: seq<Part>, i: nat, vars: Vars)
    requires i < |parts|
    ensures Joined(parts[..i + 1], vars) == Joined(parts[..i], vars) + PartText(parts[i], vars)
  {
    assert parts[..i + 1][..i] == parts[..i];
  }

  method RenderValue(v: Value, vars: Vars) returns (r: Option<Value>)
    ensures r == Fill(Parse(v), vars)
    decreases v, 1
  {
    match v {
      case Obj(fields) =>
        var out := Render(fields, vars);
        r := Some(Obj(out));
      case Arr(items) =>
        var out := RenderList(items, vars);
        r := Some(Arr(out));
      case Str(s) =>
        var name := ExactRef(s);
        if name.Some? { return Lookup(vars, name.value); }
        var text := Interpolate(s, vars);
        r := Some(Str(text));
      case _ => r := Some(v);
    }
  }

  method Splice(items: seq<Value>, list: seq<string>) returns (out: seq<Value>)
    ensures out == items + Strings(list)
  {
    out := items;
    for k := 0 to |list|
      invariant out == items + Strings(list[..k])
    {
      out := out + [Str(list[k])];
    }
    assert list[..|list|] == list;
  }

  method RenderList(items: seq<Value>, vars: Vars) returns (out: seq<Value>)
    ensures out == FillItems(Parse(Arr(items)).items, vars)
    decreases Arr(items), 0
  {
    out := [];
    ghost var parsed := Parse(Arr(items)).items;
    for i := 0 to |items|
      invariant out == FillItems(parsed[..i], vars)
    {
      assert parsed[..i + 1][..i] == parsed[..i] && parsed[i] == Parse(items[i]);
      if items[i].Str? {
        var name := ExactRef(items[i].s);
        if name.Some? && name.value in vars && vars[name.value].Strs? {
          out := Splice(out, vars[name.value].list);
          continue;
        }
      }
      var r := RenderValue(items[i], vars);
      if r.Some? { out := out + [r.value]; }
    }
    assert parsed[..|items|] == parsed;
  }

  method Render(tmpl: map<string, Value>, vars: Vars) returns (out: map<string, Value>)
    ensures Some(Obj(out)) == Fill(Parse(Obj(tmpl)), vars)
    decreases Obj(tmpl), 0
  {
    out := map[];
    var left := tmpl.Keys;
    while left != {}
      invariant left <= tmpl.Keys
      invariant forall k :: k in out <==> k in tmpl && k !in left && Fill(Parse(tmpl[k]), vars).Some?
      invariant forall k | k in out :: Some(out[k]) == Fill(Parse(tmpl[k]), vars)
      decreases left
    {
      var k :| k in left;
      var r := RenderValue(tmpl[k], vars);
      if r.Some? { out := out[k := r.value]; }
      left := left - {k};
    }
    FieldsFilled(tmpl, vars, out);
  }

  lemma FieldsFilled(tmpl: map<string, Value>, vars: Vars, out: map<string, Value>)
    requires forall k :: k in out <==> k in tmpl && Fill(Parse(tmpl[k]), vars).Some?
    requires forall k | k in out :: Some(out[k]) == Fill(Parse(tmpl[k]), vars)
    ensures Fill(Parse(Obj(tmpl)), vars) == Some(Obj(out))
  {
    var p := Parse(Obj(tmpl));
    assert p.fields.Keys == tmpl.Keys;
    forall k | k in tmpl ensures p.fields[k] == Parse(tmpl[k]) {}
    var all := map k | k in p.fields && Fill(p.fields[k], vars).Some? :: Fill(p.fields[k], vars).value;
    assert all.Keys == out.Keys;
    assert all == out;
    assert Fill(p, vars) == Some(Obj(all));
  }

  // -------------------------------------------------------------- acceptance

  datatype Kind = KString | KInt | KBool | KList | KMap

  type Kinds = map<string, Kind>

  function CheckString(s: string, kinds: Kinds): bool {
    var parts := ScanOf(s);
    parts.Some? &&
    var exact := |parts.value| == 1 && parts.value[0].Ref?;
    forall i | 0 <= i < |parts.value| ::
      match parts.value[i]
      case Lit(_) => true
      case Ref(name) => name in kinds && (!exact ==> kinds[name] == KString || kinds[name] == KInt)
  }

  /** Checks every reference against the kinds of the variables there are. */
  predicate CheckTemplate(v: Value, kinds: Kinds) {
    match v
    case Obj(fields) => forall k | k in fields :: !HasRef(k) && CheckTemplate(fields[k], kinds)
    case Arr(items) => forall i | 0 <= i < |items| :: CheckTemplate(items[i], kinds)
    case Str(s) => CheckString(s, kinds)
    case _ => true
  }

  predicate OfKind(v: Value, k: Kind) {
    match k
    case KString => v.Str?
    case KInt => v.Int?
    case KBool => v.Bool?
    case KList => v.Strs?
    case KMap => v.StrMap?
  }

  /** The variables are of the declared kinds. */
  predicate Typed(vars: Vars, kinds: Kinds) {
    forall name | name in vars && name in kinds :: OfKind(vars[name], kinds[name])
  }

  /** Every set variable that text interpolates is a string or a number: none is
      dropped. */
  ghost predicate AllShown(p: Parsed, vars: Vars) {
    match p
    case Pieced(parts) =>
      forall i | 0 <= i < |parts| :: parts[i].Ref? && parts[i].name in vars ==> vars[parts[i].name].Str? || vars[parts[i].name].Int?
    case List(items) => forall i | 0 <= i < |items| :: AllShown(items[i], vars)
    case Fields(fields) => forall k | k in fields :: AllShown(fields[k], vars)
    case _ => true
  }

  /** No string of an accepted template is kept as it is for want of a scan. */
  ghost predicate AllRead(p: Parsed) {
    match p
    case Const(v) => !v.Str? && !v.Arr? && !v.Obj?
    case Exact(name) => IsVarName(name)
    case Pieced(parts) => Canonical(parts) && !(|parts| == 1 && parts[0].Ref?)
    case List(items) => forall i | 0 <= i < |items| :: AllRead(items[i])
    case Fields(fields) => forall k | k in fields :: AllRead(fields[k])
  }

  // ------------------------------------------------------------ what it means

  /** An accepted template drops no interpolated value, and every reference of it
      was read. */
  lemma {:induction false} AcceptedIsShown(v: Value, kinds: Kinds, vars: Vars)
    requires CheckTemplate(v, kinds) && Typed(vars, kinds)
    ensures AllShown(Parse(v), vars) && AllRead(Parse(v))
  {
    match v
    case Str(s) => ScanMeans(s);
    case Arr(items) =>
      forall i | 0 <= i < |items| ensures AllShown(Parse(items[i]), vars) && AllRead(Parse(items[i])) {
        AcceptedIsShown(items[i], kinds, vars);
      }
    case Obj(fields) =>
      forall k | k in fields ensures AllShown(Parse(fields[k]), vars) && AllRead(Parse(fields[k])) {
        AcceptedIsShown(fields[k], kinds, vars);
      }
    case _ =>
  }

  lemma ParseKeepsString(s: string)
    ensures Unparse(Parse(Str(s))) == Str(s)
  {
    ScanMeans(s);
    ExactPrints();
    var parts := ScanOf(s);
    if parts.Some? && |parts.value| == 1 && parts.value[0].Ref? { assert parts.value == [Ref(parts.value[0].name)]; }
  }

  /** Reading a template keeps all of it. */
  lemma {:induction false} ParseKeeps(v: Value)
    ensures Unparse(Parse(v)) == v
  {
    match v
    case Str(s) => ParseKeepsString(s);
    case Arr(items) =>
      forall i | 0 <= i < |items| ensures Unparse(Parse(items[i])) == items[i] { ParseKeeps(items[i]); }
      assert Unparse(Parse(v)).items == items;
    case Obj(fields) =>
      forall k | k in fields ensures Unparse(Parse(fields[k])) == fields[k] { ParseKeeps(fields[k]); }
      assert Unparse(Parse(v)).fields == fields;
    case _ =>
  }

  /** Exactly the fields that are exact references to unset variables disappear,
      and an exact reference keeps its variable's type. */
  lemma FieldsThatStay(fields: map<string, Value>, vars: Vars, k: string)
    requires k in fields
    ensures var out := Fill(Parse(Obj(fields)), vars).value.fields;
      && (k !in out <==> fields[k].Str? && ExactRef(fields[k].s).Some? && Lookup(vars, ExactRef(fields[k].s).value).None?)
      && (k in out && fields[k].Str? && ExactRef(fields[k].s).Some? ==> out[k] == vars[ExactRef(fields[k].s).value])
  {
    assert Parse(Obj(fields)).fields[k] == Parse(fields[k]);
    assert k in Fill(Parse(Obj(fields)), vars).value.fields <==> Fill(Parse(fields[k]), vars).Some?;
  }

  /** Arrays are filled item by item, in order. */
  lemma {:induction false} ItemsInOrder(a: seq<Parsed>, b: seq<Parsed>, vars: Vars)
    ensures FillItems(a + b, vars) == FillItems(a, vars) + FillItems(b, vars)
    decreases |b|
  {
    if b == [] {
      assert a + b == a;
    } else {
      var n := |b| - 1;
      assert (a + b)[..|a| + n] == a + b[..n];
      ItemsInOrder(a, b[..n], vars);
    }
  }

  /** A list variable alone in an array is spliced; an unset one leaves nothing. */
  lemma ListsAreSpliced(name: string, vars: Vars)
    requires name in vars && vars[name].Strs?
    ensures |FillItem(Exact(name), vars)| == |vars[name].list|
    ensures forall i | 0 <= i < |vars[name].list| :: FillItem(Exact(name), vars)[i] == Str(vars[name].list[i])
  {}

  lemma {:induction false} JoinedInOrder(a: seq<Part>, b: seq<Part>, vars: Vars)
    ensures Joined(a + b, vars) == Joined(a, vars) + Joined(b, vars)
    decreases |b|
  {
    if b == [] {
      assert a + b == a;
    } else {
      var n := |b| - 1;
      assert (a + b)[..|a + b| - 1] == a + b[..n];
      assert (a + b)[|a + b| - 1] == b[n];
      JoinedInOrder(a, b[..n], vars);
    }
  }

  /** A value is never read again, whatever it looks like: text keeps it whole
      between what comes before and after. */
  lemma ValuesStayWhole(before: seq<Part>, name: string, after: seq<Part>, vars: Vars)
    ensures Joined(before + [Ref(name)] + after, vars) == Joined(before, vars) + Shown(vars, name) + Joined(after, vars)
  {
    JoinedInOrder(before + [Ref(name)], after, vars);
    JoinedInOrder(before, [Ref(name)], vars);
    assert [Ref(name)][..0] == [];
    assert Joined([Ref(name)], vars) == Joined([], vars) + Shown(vars, name);
  }

  /** The template refers to the variable. */
  ghost predicate Names(p: Parsed, name: string) {
    match p
    case Exact(n) => n == name
    case Pieced(parts) => exists i :: 0 <= i < |parts| && parts[i] == Ref(name)
    case List(items) => exists i :: 0 <= i < |items| && Names(items[i], name)
    case Fields(fields) => exists k :: k in fields && Names(fields[k], name)
    case Const(_) => false
  }

  ghost predicate Agree(a: Vars, b: Vars, name: string) { (name in a <==> name in b) && (name in a ==> a[name] == b[name]) }

  /** Filling depends on nothing but the variables the template names: text that
      only the values hold is never looked up. */
  lemma {:induction false} FillReadsNamesOnly(p: Parsed, a: Vars, b: Vars)
    requires forall name | Names(p, name) :: Agree(a, b, name)
    ensures Fill(p, a) == Fill(p, b) && FillItem(p, a) == FillItem(p, b)
    decreases p, 1
  {
    match p
    case Exact(name) => assert Names(p, name);
    case Pieced(parts) => JoinedReadsNamesOnly(parts, a, b);
    case List(items) => ItemsReadNamesOnly(items, a, b);
    case Fields(fields) =>
      forall k | k in fields ensures Fill(fields[k], a) == Fill(fields[k], b) {
        forall name | Names(fields[k], name) ensures Agree(a, b, name) { assert Names(p, name); }
        FillReadsNamesOnly(fields[k], a, b);
      }
      var ra := map k | k in fields && Fill(fields[k], a).Some? :: Fill(fields[k], a).value;
      var rb := map k | k in fields && Fill(fields[k], b).Some? :: Fill(fields[k], b).value;
      assert ra == rb;
      assert Fill(p, a) == Some(Obj(ra)) && Fill(p, b) == Some(Obj(rb));
    case Const(_) =>
  }

  lemma {:induction false} JoinedReadsNamesOnly(parts: seq<Part>, a: Vars, b: Vars)
    requires forall name | Names(Pieced(parts), name) :: Agree(a, b, name)
    ensures Joined(parts, a) == Joined(parts, b)
    decreases |parts|
  {
    if parts != [] {
      var n := |parts| - 1;
      forall name | Names(Pieced(parts[..n]), name) ensures Agree(a, b, name) {
        var i :| 0 <= i < n && parts[..n][i] == Ref(name);
        assert parts[i] == Ref(name) && Names(Pieced(parts), name);
      }
      JoinedReadsNamesOnly(parts[..n], a, b);
      if parts[n].Ref? { assert parts[n] == Ref(parts[n].name) && Names(Pieced(parts), parts[n].name); }
    }
  }

  lemma {:induction false} ItemsReadNamesOnly(items: seq<Parsed>, a: Vars, b: Vars)
    requires forall name | Names(List(items), name) :: Agree(a, b, name)
    ensures FillItems(items, a) == FillItems(items, b)
    decreases items, 2
  {
    if items != [] {
      var n := |items| - 1;
      forall name | Names(List(items[..n]), name) ensures Agree(a, b, name) {
        var i :| 0 <= i < n && Names(items[..n][i], name);
        assert Names(items[i], name) && Names(List(items), name);
      }
      ItemsReadNamesOnly(items[..n], a, b);
      forall name | Names(items[n], name) ensures Agree(a, b, name) { assert Names(List(items), name); }
      FillReadsNamesOnly(items[n], a, b);
    }
  }
}
