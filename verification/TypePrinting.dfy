/**
 How a type is spelled (`TypeDisplay` in `tracewasm-llvm/src/value.rs`), and a parser that
 reads the spelling back.  The parser is not part of the program: it is the witness that no
 two types share a spelling, which is what lets an error message or emitted IR name a type.
 */
module TypePrinting {
  import opened Values
  import opened Types
  import opened Decimal

  function PrimitiveName(p: Primitive): string {
    match p
    case TyI1 => "i1"
    case TyI8 => "i8"
    case TyI16 => "i16"
    case TyI32 => "i32"
    case TyI64 => "i64"
    case TyHalf => "half"
    case TyBfloat => "bfloat"
    case TyFloat => "float"
    case TyDouble => "double"
    case TyPtr => "ptr"
    case TyVoid => "void"
  }

  function Open(packed: bool): string { if packed then "<{ " else "{ " }
  function Close(packed: bool): string { if packed then " }>" else " }" }

  /** The spelling of a type; a function type puts its result first. */
  function Text(t: Tree): string
    decreases t, 0
  {
    match t
    case TPrim(p) => PrimitiveName(p)
    case TArray(n, e) => "[" + Numeral(n) + " x " + Text(e) + "]"
    case TStruct(fs, packed) => Open(packed) + JoinedText(fs) + Close(packed)
    case TFunc(ps, r) => Text(r) + " (" + JoinedText(ps) + ")"
  }

  function JoinedText(ts: seq<Tree>): string
    decreases ts, 0
  {
    if ts == [] then ""
    else if |ts| == 1 then Text(ts[0])
    else Text(ts[0]) + ", " + JoinedText(ts[1..])
  }

  // ------------------------------------------------------------------ the printer's own loops

  ghost function UnfoldAll(pool: seq<Type>, ids: seq<TyId>): (ts: seq<Tree>)
    requires TypePool(pool) && forall i :: 0 <= i < |ids| ==> ids[i] < |pool|
    ensures |ts| == |ids| && forall i :: 0 <= i < |ids| ==> ts[i] == Unfold(pool, ids[i])
  {
    seq(|ids|, i requires 0 <= i < |ids| => Unfold(pool, ids[i]))
  }

  lemma {:induction false} JoinSnoc(ts: seq<Tree>, t: Tree)
    ensures JoinedText(ts + [t]) == (if ts == [] then "" else JoinedText(ts) + ", ") + Text(t)
  {
    hide PrimitiveName;
    if 1 < |ts| {
      JoinSnoc(ts[1..], t);
      assert (ts + [t])[1..] == ts[1..] + [t];
    } else if |ts| == 1 {
      assert (ts + [t])[1..] == [t];
    }
  }

  /** `TypeDisplay::fmt`: resolves each child through the pool as it writes. */
  method Fmt(pool: seq<Type>, id: TyId) returns (out: string)
    requires TypePool(pool) && id < |pool|
    ensures out == Text(Unfold(pool, id))
    decreases id, 1
  {
    match pool[id]
    case Prim(p) =>
      out := PrimitiveName(p);
    case Array(size, element) =>
      var inner := Fmt(pool, element);
      out := "[" + Numeral(size) + " x " + inner + "]";
    case Struct(fields, packed) =>
      var inner := FmtList(pool, id, fields);
      assert UnfoldAll(pool, fields) == Unfold(pool, id).fields;
      out := Open(packed) + inner + Close(packed);
    case Func(params, result) =>
      out := Fmt(pool, result);
      var inner := FmtList(pool, id, params);
      assert UnfoldAll(pool, params) == Unfold(pool, id).params;
      out := out + " (" + inner + ")";
  }

  method FmtList(pool: seq<Type>, bound: TyId, ids: seq<TyId>) returns (out: string)
    requires TypePool(pool) && bound < |pool| && forall i :: 0 <= i < |ids| ==> ids[i] < bound
    ensures out == JoinedText(UnfoldAll(pool, ids))
    decreases bound, 0
  {
    out := "";
    ghost var ts := UnfoldAll(pool, ids);
    for i := 0 to |ids|
      invariant out == JoinedText(ts[..i])
    {
      if i != 0 {
        out := out + ", ";
      }
      var piece := Fmt(pool, ids[i]);
      JoinSnoc(ts[..i], ts[i]);
      assert ts[..i + 1] == ts[..i] + [ts[i]];
      out := out + piece;
    }
    assert ts[..|ids|] == ts;
  }

  // ------------------------------------------------------------------ the parser

  datatype Parse<+T> = NoParse | Parsed(value: T, rest: string)

  predicate StartsWith(s: string, prefix: string) {
    |prefix| <= |s| && s[..|prefix|] == prefix
  }

  predicate WordChar(c: char) { 'a' <= c <= 'z' || IsDigit(c) }

  /** The length of the longest run of word characters, or of digits, that `s` starts with. */
  function RunLength(s: string, digits: bool): (n: nat)
    ensures n <= |s|
    ensures digits ==> forall i :: 0 <= i < n ==> IsDigit(s[i])
  {
    if s != [] && (if digits then IsDigit(s[0]) else WordChar(s[0])) then 1 + RunLength(s[1..], digits) else 0
  }

  function PrimitiveOf(word: string): Option<Primitive> {
    if word == "i1" then Some(TyI1)
    else if word == "i8" then Some(TyI8)
    else if word == "i16" then Some(TyI16)
    else if word == "i32" then Some(TyI32)
    else if word == "i64" then Some(TyI64)
    else if word == "half" then Some(TyHalf)
    else if word == "bfloat" then Some(TyBfloat)
    else if word == "float" then Some(TyFloat)
    else if word == "double" then Some(TyDouble)
    else if word == "ptr" then Some(TyPtr)
    else if word == "void" then Some(TyVoid)
    else None
  }

  /** A whole type: what it starts with, then any parameter lists that make it a function's result. */
  function ParseType(s: string): (r: Parse<Tree>)
    ensures r.Parsed? ==> |r.rest| < |s|
    decreases |s|, 2
  {
    match ParseHead(s)
    case NoParse => NoParse
    case Parsed(t, rest) => ParseSuffix(t, rest)
  }

  function ParseHead(s: string): (r: Parse<Tree>)
    ensures r.Parsed? ==> |r.rest| < |s|
    decreases |s|, 1
  {
    if StartsWith(s, "[") then ParseArray(s[1..])
    else if StartsWith(s, Open(true)) then ParseStruct(s[3..], true)
    else if StartsWith(s, Open(false)) then ParseStruct(s[2..], false)
    else
      var n := RunLength(s, false);
      if n == 0 || PrimitiveOf(s[..n]) == None then NoParse
      else Parsed(TPrim(PrimitiveOf(s[..n]).value), s[n..])
  }

  function ParseArray(s: string): (r: Parse<Tree>)
    ensures r.Parsed? ==> |r.rest| < |s|
    decreases |s|, 4
  {
    var n := RunLength(s, true);
    if !StartsWith(s[n..], " x ") then NoParse else
    match ParseType(s[n..][3..])
    case NoParse => NoParse
    case Parsed(t, rest) =>
      if StartsWith(rest, "]") then Parsed(TArray(NumeralValue(s[..n]), t), rest[1..]) else NoParse
  }

  function ParseStruct(s: string, packed: bool): (r: Parse<Tree>)
    ensures r.Parsed? ==> |r.rest| < |s|
    decreases |s|, 4
  {
    match ParseList(s, Close(packed))
    case NoParse => NoParse
    case Parsed(ts, rest) => Parsed(TStruct(ts, packed), rest)
  }

  function ParseSuffix(t: Tree, s: string): (r: Parse<Tree>)
    ensures r.Parsed? ==> |r.rest| <= |s|
    decreases |s|, 0
  {
    if !StartsWith(s, " (") then Parsed(t, s) else
    match ParseList(s[2..], ")")
    case NoParse => NoParse
    case Parsed(ps, rest) => ParseSuffix(TFunc(ps, t), rest)
  }

  function ParseList(s: string, close: string): (r: Parse<seq<Tree>>)
    requires close != ""
    ensures r.Parsed? ==> |r.rest| < |s|
    decreases |s|, 3
  {
    if StartsWith(s, close) then Parsed([], s[|close|..]) else
    match ParseType(s)
    case NoParse => NoParse
    case Parsed(t, rest) =>
      if StartsWith(rest, close) then Parsed([t], rest[|close|..])
      else if !StartsWith(rest, ", ") then NoParse
      else
        match ParseList(rest[2..], close)
        case NoParse => NoParse
        case Parsed(ts, after) => Parsed([t] + ts, after)
  }

  // ------------------------------------------------------------------ printing, then parsing

  /** What may follow a type in a spelling. */
  predicate Follows(rest: string) {
    rest == "" || rest[0] == ' ' || rest[0] == ',' || rest[0] == ']' || rest[0] == ')'
  }

  lemma {:induction false} RunStops(word: string, rest: string, digits: bool)
    requires forall i :: 0 <= i < |word| ==> if digits then IsDigit(word[i]) else WordChar(word[i])
    requires Follows(rest)
    ensures RunLength(word + rest, digits) == |word|
  {
    if word == "" {
      assert word + rest == rest;
    } else {
      assert (word + rest)[1..] == word[1..] + rest;
      RunStops(word[1..], rest, digits);
    }
  }

  lemma PrefixOf(prefix: string, rest: string)
    ensures StartsWith(prefix + rest, prefix) && (prefix + rest)[|prefix|..] == rest
  {
  }

  lemma PrimitiveWord(p: Primitive)
    ensures var word := PrimitiveName(p);
      word != "" && (forall i :: 0 <= i < |word| ==> WordChar(word[i])) && PrimitiveOf(word) == Some(p)
  {
  }

  /** What begins with a word character begins with no bracket. */
  lemma WordOpensNothing(s: string)
    requires s != "" && WordChar(s[0])
    ensures !StartsWith(s, "[") && !StartsWith(s, Open(true)) && !StartsWith(s, Open(false))
  {
    assert Open(true)[0] == '<' && Open(false)[0] == '{';
  }

  lemma PrimitiveParses(p: Primitive, rest: string)
    requires Follows(rest)
    ensures ParseHead(PrimitiveName(p) + rest) == Parsed(TPrim(p), rest)
  {
    hide PrimitiveName, PrimitiveOf, Open, StartsWith, RunLength, WordChar, ParseArray, ParseStruct;
    var word := PrimitiveName(p);
    PrimitiveWord(p);
    RunStops(word, rest, false);
    assert (word + rest)[..|word|] == word;
    assert (word + rest)[|word|..] == rest;
    assert (word + rest)[0] == word[0];
    WordOpensNothing(word + rest);
  }

  /** A spelling starts with a letter or an opening bracket, never with what may close a list. */
  lemma {:induction false} FirstChar(t: Tree)
    ensures Text(t) != "" && Text(t)[0] != ' ' && Text(t)[0] != ')'
  {
    match t
    case TFunc(_, r) => FirstChar(r);
    case _ =>
  }

  lemma ArrayBodyParses(n: nat, e: Tree, rest: string)
    requires ParseType(Text(e) + ("]" + rest)) == Parsed(e, "]" + rest)
    ensures ParseArray(Numeral(n) + (" x " + (Text(e) + ("]" + rest)))) == Parsed(TArray(n, e), rest)
  {
    var tail := " x " + (Text(e) + ("]" + rest));
    RunStops(Numeral(n), tail, true);
    ReadNumeral(n);
    assert (Numeral(n) + tail)[..|Numeral(n)|] == Numeral(n);
    PrefixOf(Numeral(n), tail);
    PrefixOf(" x ", Text(e) + ("]" + rest));
    PrefixOf("]", rest);
  }

  lemma ArrayParses(n: nat, e: Tree, rest: string)
    requires ParseType(Text(e) + ("]" + rest)) == Parsed(e, "]" + rest)
    ensures ParseHead(Text(TArray(n, e)) + rest) == Parsed(TArray(n, e), rest)
  {
    hide PrimitiveName, PrimitiveOf, ParseArray, ParseStruct, Numeral, RunLength, Text;
    var body := Numeral(n) + (" x " + (Text(e) + ("]" + rest)));
    ArrayText(n, e, rest);
    PrefixOf("[", body);
    ArrayBodyParses(n, e, rest);
  }

  lemma ArrayText(n: nat, e: Tree, rest: string)
    ensures Text(TArray(n, e)) + rest == "[" + (Numeral(n) + (" x " + (Text(e) + ("]" + rest))))
  {
    hide Numeral;
  }

  lemma StructParses(fs: seq<Tree>, packed: bool, rest: string)
    requires ParseList(JoinedText(fs) + (Close(packed) + rest), Close(packed)) == Parsed(fs, rest)
    ensures ParseHead(Text(TStruct(fs, packed)) + rest) == Parsed(TStruct(fs, packed), rest)
  {
    hide ParseHead, ParseList, Text, JoinedText, Open, Close;
    StructText(fs, packed, rest);
    OpenChosen(packed, JoinedText(fs) + (Close(packed) + rest));
  }

  lemma StructText(fs: seq<Tree>, packed: bool, rest: string)
    ensures Text(TStruct(fs, packed)) + rest == Open(packed) + (JoinedText(fs) + (Close(packed) + rest))
  {
    hide JoinedText, Open, Close;
  }

  lemma OpenChosen(packed: bool, body: string)
    ensures ParseHead(Open(packed) + body) == ParseStruct(body, packed)
  {
    var s := Open(packed) + body;
    PrefixOf(Open(packed), body);
    assert s[0] == Open(packed)[0];
    if packed {
      assert s[3..] == body;
    } else {
      assert s[2..] == body;
      assert Open(true)[0] == '<';
    }
  }

  /** A list's closing bracket ends the last type in it. */
  predicate IsClose(close: string) {
    close == ")" || close == " }" || close == " }>"
  }

  lemma {:induction false} ListParses(ts: seq<Tree>, close: string, rest: string)
    requires IsClose(close)
    ensures ParseList(JoinedText(ts) + (close + rest), close) == Parsed(ts, rest)
    decreases ts, 1
  {
    hide Text, ParseType, ParseSuffix;
    if ts == [] {
      assert JoinedText(ts) + (close + rest) == close + rest;
      PrefixOf(close, rest);
    } else if |ts| == 1 {
      TypeParses(ts[0], close + rest);
      ParseOne(ts[0], close, rest);
      assert ts == [ts[0]];
    } else {
      var more := JoinedText(ts[1..]) + (close + rest);
      assert JoinedText(ts) + (close + rest) == Text(ts[0]) + (", " + more);
      TypeParses(ts[0], ", " + more);
      ListParses(ts[1..], close, rest);
      ParseMore(ts[0], more, close);
      assert ts == [ts[0]] + ts[1..];
    }
  }

  /** A type followed by the closing bracket is the last of its list. */
  lemma ParseOne(t: Tree, close: string, rest: string)
    requires IsClose(close)
    requires ParseType(Text(t) + (close + rest)) == ParseSuffix(t, close + rest)
    ensures ParseList(Text(t) + (close + rest), close) == Parsed([t], rest)
  {
    NotClosed(t, close + rest, close);
    NotSuffix(close, rest);
    PrefixOf(close, rest);
  }

  lemma NotSuffix(close: string, rest: string)
    requires IsClose(close)
    ensures !StartsWith(close + rest, " (")
  {
    assert (close + rest)[0] == close[0];
    assert 1 < |close| ==> (close + rest)[1] == close[1];
    assert (" (")[0] == ' ' && (" (")[1] == '(';
  }

  lemma NotClosed(t: Tree, rest: string, close: string)
    requires IsClose(close)
    ensures !StartsWith(Text(t) + rest, close)
  {
    FirstChar(t);
    assert (Text(t) + rest)[0] == Text(t)[0];
  }

  /** A type followed by a comma is the first of a longer list. */
  lemma ParseMore(t: Tree, more: string, close: string)
    requires IsClose(close) && ParseList(more, close).Parsed?
    requires ParseType(Text(t) + (", " + more)) == ParseSuffix(t, ", " + more)
    ensures ParseList(Text(t) + (", " + more), close)
         == Parsed([t] + ParseList(more, close).value, ParseList(more, close).rest)
  {
    hide PrimitiveName, PrimitiveOf;
    var tail := ", " + more;
    NotClosed(t, tail, close);
    assert tail[0] == ',';
    assert !StartsWith(tail, " (") && !StartsWith(tail, close);
    PrefixOf(", ", more);
  }

  /** Parsing a spelling reads the type back, and then whatever makes it part of a larger one. */
  lemma {:induction false} TypeParses(t: Tree, rest: string)
    requires Follows(rest)
    ensures ParseType(Text(t) + rest) == ParseSuffix(t, rest)
    decreases t, 0
  {
    hide PrimitiveName, PrimitiveOf, ParseHead, ParseList;
    match t
    case TPrim(p) =>
      PrimitiveParses(p, rest);
    case TArray(n, e) =>
      TypeParses(e, "]" + rest);
      assert !StartsWith("]" + rest, " (");
      ArrayParses(n, e, rest);
    case TStruct(fs, packed) =>
      ListParses(fs, Close(packed), rest);
      StructParses(fs, packed, rest);
    case TFunc(ps, r) =>
      var tail := JoinedText(ps) + (")" + rest);
      TypeParses(r, " (" + tail);
      assert Text(t) + rest == Text(r) + (" (" + tail);
      PrefixOf(" (", tail);
      ListParses(ps, ")", rest);
  }

  /** The parser inverts the printer on every type. */
  lemma ParsePrinted(t: Tree)
    ensures ParseType(Text(t)) == Parsed(t, "")
  {
    TypeParses(t, "");
    assert Text(t) + "" == Text(t);
  }

  /**
   Two ids of one pool print the same exactly when they are the same id, at every depth of
   arrays, structs and function types.
   */
  lemma PrintingIsInjective(pool: seq<Type>, a: TyId, b: TyId)
    requires TypePool(pool) && a < |pool| && b < |pool|
    ensures Text(Unfold(pool, a)) == Text(Unfold(pool, b)) <==> a == b
  {
    ParsePrinted(Unfold(pool, a));
    ParsePrinted(Unfold(pool, b));
    IdEqualityIsDeepEquality(pool, a, b);
  }
}
