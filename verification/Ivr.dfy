/** The digit map of an IVR menu compiled into nested cond text
    (app/services/fusionpbx/client.py:1338-1352), and what that text means. */
module IvrText {
  import opened Names
  import opened Text

  type Items = seq<(char, string)>

  /** Keys are single digits, targets are dial tokens, and there is at least one. */
  predicate ValidOptions(options: map<string, string>) {
    options != map[] && forall k :: k in options ==> |k| == 1 && IsDigit(k[0]) && ValidToken(options[k])
  }

  // The entries whose digit is at least `i`, in ascending order.
  function SortedFrom(options: map<string, string>, i: nat): (items: Items)
    requires i <= 10
    decreases 10 - i
  {
    if i == 10 then []
    else
      var c := ('0' as int + i) as char;
      if [c] in options then [(c, options[[c]])] + SortedFrom(options, i + 1) else SortedFrom(options, i + 1)
  }

  ghost predicate Listed(options: map<string, string>, i: nat, items: Items) {
    && (forall j :: 0 <= j < |items| ==>
         '0' as int + i <= items[j].0 as int && [items[j].0] in options && options[[items[j].0]] == items[j].1)
    && (forall j, k :: 0 <= j < k < |items| ==> items[j].0 < items[k].0)
  }

  lemma {:induction false} SortedListed(options: map<string, string>, i: nat)
    requires i <= 10
    ensures Listed(options, i, SortedFrom(options, i))
    decreases 10 - i
  {
    if i < 10 {
      SortedListed(options, i + 1);
    }
  }

  lemma {:induction false} SortedComplete(options: map<string, string>, i: nat, c: char)
    requires i <= 10 && IsDigit(c) && '0' as int + i <= c as int && [c] in options
    ensures (c, options[[c]]) in SortedFrom(options, i)
    decreases 10 - i
  {
    if c as int == '0' as int + i {
      assert SortedFrom(options, i)[0] == (c, options[[c]]);
    } else {
      SortedComplete(options, i + 1, c);
    }
  }

  function SortedItems(options: map<string, string>): Items {
    SortedFrom(options, 0)
  }

  // ------------------------------------------------------------------- the text

  const COND_OPEN := "${cond(${ivr_choice} == "
  const COND_THEN := " ? "
  const COND_ELSE := " : "
  const COND_CLOSE := ")}"

  function Nest(digit: char, target: string, expr: string): string {
    COND_OPEN + ([digit] + (COND_THEN + (target + (COND_ELSE + (expr + COND_CLOSE)))))
  }

  function NestAll(items: Items): string
    requires items != []
  {
    if |items| == 1 then items[0].1 else Nest(items[0].0, items[0].1, NestAll(items[1..]))
  }

  /** The loop of the source: the last entry is the default, the others wrap it from the inside out. */
  method BuildTarget(items: Items) returns (expr: string)
    requires items != []
    ensures expr == NestAll(items)
  {
    expr := items[|items| - 1].1;
    var i := |items| - 1;
    while i > 0
      invariant 0 <= i < |items|
      invariant expr == NestAll(items[i..])
    {
      i := i - 1;
      expr := Nest(items[i].0, items[i].1, expr);
      assert items[i..][1..] == items[i + 1..];
    }
    assert items[0..] == items;
  }

  function Digits(items: Items): string {
    seq(|items|, i requires 0 <= i < |items| => items[i].0)
  }

  /** The generated pattern `^[digits]$`. */
  predicate PatternAccepts(digits: string, input: string) {
    |input| == 1 && input[0] in digits
  }

  // --------------------------------------------------------- reading it back

  datatype Expr = Goto(target: string) | Cond(digit: char, target: string, other: Expr)

  function Print(e: Expr): string {
    match e
    case Goto(s) => s
    case Cond(d, s, other) => Nest(d, s, Print(other))
  }

  ghost predicate WellFormedExpr(e: Expr) {
    match e
    case Goto(s) => ValidToken(s)
    case Cond(d, s, other) => ValidToken(s) && WellFormedExpr(other)
  }

  function TokenLength(s: string): (n: nat)
    ensures n <= |s| && (n < |s| ==> !IsDialChar(s[n]))
    ensures forall i :: 0 <= i < n ==> IsDialChar(s[i])
  {
    if s != [] && IsDialChar(s[0]) then 1 + TokenLength(s[1..]) else 0
  }

  function Expect(prefix: string, s: string): (r: Option<string>)
    ensures r.Some? <==> prefix <= s
    ensures r.Some? ==> s == prefix + r.value
  {
    if prefix <= s then Some(s[|prefix|..]) else None
  }

  function ReadToken(s: string): (r: Option<(string, string)>)
    ensures r.Some? ==> s == r.value.0 + r.value.1 && r.value.0 != []
  {
    var n := TokenLength(s);
    if n == 0 then None else Some((s[..n], s[n..]))
  }

  // `digit ? target : ` after the opening of a cond.
  function ReadHead(s: string): (r: Option<(char, string, string)>)
    ensures r.Some? ==> |r.value.2| < |s|
  {
    if s == [] then None else
    match Expect(COND_THEN, s[1..])
    case None => None
    case Some(s1) =>
      match ReadToken(s1)
      case None => None
      case Some((target, s2)) =>
        match Expect(COND_ELSE, s2)
        case None => None
        case Some(s3) => Some((s[0], target, s3))
  }

  /** A one-pass reader of the expression text; returns the expression and what follows it. */
  function Read(s: string): (r: Option<(Expr, string)>)
    decreases |s|
  {
    match Expect(COND_OPEN, s)
    case None =>
      (match ReadToken(s)
       case None => None
       case Some((target, rest)) => Some((Goto(target), rest)))
    case Some(s1) =>
      match ReadHead(s1)
      case None => None
      case Some((digit, target, s2)) =>
        match Read(s2)
        case None => None
        case Some((other, s3)) =>
          match Expect(COND_CLOSE, s3)
          case None => None
          case Some(rest) => Some((Cond(digit, target, other), rest))
  }

  lemma ExpectOwn(prefix: string, s: string)
    ensures Expect(prefix, prefix + s) == Some(s)
  {
    assert (prefix + s)[|prefix|..] == s;
  }

  lemma {:induction false} TokenLengthOf(t: string, rest: string)
    requires DialChars(t) && (rest != [] ==> !IsDialChar(rest[0]))
    ensures TokenLength(t + rest) == |t|
  {
    if t == [] {
      assert t + rest == rest;
    } else {
      assert (t + rest)[1..] == t[1..] + rest && (t + rest)[0] == t[0];
      TokenLengthOf(t[1..], rest);
    }
  }

  lemma ReadTokenOwn(t: string, rest: string)
    requires ValidToken(t) && (rest != [] ==> !IsDialChar(rest[0]))
    ensures ReadToken(t + rest) == Some((t, rest))
  {
    TokenLengthOf(t, rest);
    assert (t + rest)[..|t|] == t && (t + rest)[|t|..] == rest;
  }

  lemma ReadHeadOwn(digit: char, target: string, s: string)
    requires ValidToken(target)
    ensures ReadHead([digit] + (COND_THEN + (target + (COND_ELSE + s)))) == Some((digit, target, s))
  {
    var tail := COND_THEN + (target + (COND_ELSE + s));
    assert ([digit] + tail)[1..] == tail;
    ExpectOwn(COND_THEN, target + (COND_ELSE + s));
    assert (COND_ELSE + s)[0] == ' ';
    ReadTokenOwn(target, COND_ELSE + s);
    ExpectOwn(COND_ELSE, s);
  }

  lemma NotCond(t: string, rest: string)
    requires ValidToken(t)
    ensures Expect(COND_OPEN, t + rest) == None
  {
    assert (t + rest)[0] == t[0] && COND_OPEN[0] == '$';
  }

  lemma NestThen(d: char, t: string, s: string, rest: string)
    ensures Nest(d, t, s) + rest == COND_OPEN + ([d] + (COND_THEN + (t + (COND_ELSE + (s + (COND_CLOSE + rest))))))
  {
    assert (s + COND_CLOSE) + rest == s + (COND_CLOSE + rest);
    assert (COND_ELSE + (s + COND_CLOSE)) + rest == COND_ELSE + (s + (COND_CLOSE + rest));
    assert (t + (COND_ELSE + (s + COND_CLOSE))) + rest == t + (COND_ELSE + (s + (COND_CLOSE + rest)));
    assert (COND_THEN + (t + (COND_ELSE + (s + COND_CLOSE)))) + rest
        == COND_THEN + (t + (COND_ELSE + (s + (COND_CLOSE + rest))));
  }

  /** Printed text reads back as the very expression, whatever non-token text follows. */
  lemma {:induction false} ReadPrinted(e: Expr, rest: string)
    requires WellFormedExpr(e) && (rest != [] ==> !IsDialChar(rest[0]))
    ensures Read(Print(e) + rest) == Some((e, rest))
    decreases e
  {
    match e
    case Goto(t) =>
      NotCond(t, rest);
      ReadTokenOwn(t, rest);
    case Cond(d, t, other) =>
      var s := Print(other) + (COND_CLOSE + rest);
      NestThen(d, t, Print(other), rest);
      ExpectOwn(COND_OPEN, [d] + (COND_THEN + (t + (COND_ELSE + s))));
      ReadHeadOwn(d, t, s);
      assert (COND_CLOSE + rest)[0] == ')';
      ReadPrinted(other, COND_CLOSE + rest);
      ExpectOwn(COND_CLOSE, rest);
  }

  // ------------------------------------------------------------- its meaning

  function Eval(e: Expr, choice: char): string {
    match e
    case Goto(t) => t
    case Cond(d, t, other) => if choice == d then t else Eval(other, choice)
  }

  function Tree(items: Items): Expr
    requires items != []
  {
    if |items| == 1 then Goto(items[0].1) else Cond(items[0].0, items[0].1, Tree(items[1..]))
  }

  lemma {:induction false} TreePrints(items: Items)
    requires items != [] && forall j :: 0 <= j < |items| ==> ValidToken(items[j].1)
    ensures Print(Tree(items)) == NestAll(items) && WellFormedExpr(Tree(items))
  {
    if |items| > 1 {
      TreePrints(items[1..]);
    }
  }

  lemma {:induction false} TreeEvaluates(items: Items, j: nat)
    requires j < |items| && forall i, k :: 0 <= i < k < |items| ==> items[i].0 < items[k].0
    ensures Eval(Tree(items), items[j].0) == items[j].1
  {
    if |items| > 1 && j > 0 {
      assert items[0].0 < items[j].0;
      TreeEvaluates(items[1..], j - 1);
    }
  }

  lemma SortedNonEmpty(options: map<string, string>)
    requires ValidOptions(options)
    ensures SortedItems(options) != []
  {
    var k :| k in options;
    assert [k[0]] == k;
    SortedComplete(options, 0, k[0]);
  }

  lemma PatternIsExact(options: map<string, string>, input: string)
    requires ValidOptions(options)
    ensures PatternAccepts(Digits(SortedItems(options)), input) <==> input in options
  {
    var items := SortedItems(options);
    SortedListed(options, 0);
    hide SortedFrom;
    if input in options {
      assert [input[0]] == input;
      SortedComplete(options, 0, input[0]);
      var j :| 0 <= j < |items| && items[j].0 == input[0];
      assert Digits(items)[j] == input[0];
    }
    if PatternAccepts(Digits(items), input) {
      var j :| 0 <= j < |items| && Digits(items)[j] == input[0];
      assert [items[j].0] == input;
    }
  }

  lemma ChoiceReachesTarget(options: map<string, string>, input: string)
    requires ValidOptions(options) && input in options
    ensures SortedItems(options) != []
    ensures Eval(Tree(SortedItems(options)), input[0]) == options[input]
  {
    SortedNonEmpty(options);
    var items := SortedItems(options);
    SortedListed(options, 0);
    hide SortedFrom;
    assert [input[0]] == input;
    SortedComplete(options, 0, input[0]);
    var j :| 0 <= j < |items| && items[j].0 == input[0];
    TreeEvaluates(items, j);
  }

  lemma CompiledReadsBack(options: map<string, string>)
    requires ValidOptions(options)
    ensures SortedItems(options) != []
    ensures var items := SortedItems(options);
      Read(NestAll(items)) == Some((Tree(items), [])) && Escape(NestAll(items)) == NestAll(items)
  {
    SortedNonEmpty(options);
    var items := SortedItems(options);
    SortedTargets(options);
    TreePrints(items);
    ReadPrinted(Tree(items), []);
    assert NestAll(items) + [] == NestAll(items);
    NestAllPlain(items);
    EscapePlain(NestAll(items));
  }

  lemma SortedTargets(options: map<string, string>)
    requires ValidOptions(options)
    ensures forall j :: 0 <= j < |SortedItems(options)| ==>
      ValidToken(SortedItems(options)[j].1) && IsDigit(SortedItems(options)[j].0)
  {
    var items := SortedItems(options);
    SortedListed(options, 0);
    hide SortedFrom, ValidToken;
    forall j | 0 <= j < |items| ensures ValidToken(items[j].1) && IsDigit(items[j].0) {
      assert [items[j].0] in options;
    }
  }

  /** For every valid digit map the compiled text, which escaping leaves alone, reads back as
      one expression with nothing left over, the pattern accepts exactly the mapped digits,
      and on each of them the expression yields that digit's target. */
  lemma CompilationPreservesMeaning(options: map<string, string>)
    requires ValidOptions(options)
    ensures SortedItems(options) != []
    ensures var items := SortedItems(options);
      exists e :: Read(Escape(NestAll(items))) == Some((e, []))
        && forall input :: PatternAccepts(Digits(items), input) <==>
             input in options && Eval(e, input[0]) == options[input]
  {
    CompiledReadsBack(options);
    var items := SortedItems(options);
    forall input
      ensures PatternAccepts(Digits(items), input) <==>
              input in options && Eval(Tree(items), input[0]) == options[input]
    {
      PatternIsExact(options, input);
      if input in options {
        ChoiceReachesTarget(options, input);
      }
    }
  }

  // ----------------------------------------------------------- XML attributes

  function EscapeChar(c: char): string {
    if c == '&' then "&amp;" else if c == '<' then "&lt;" else if c == '>' then "&gt;"
    else if c == '"' then "&quot;" else if c == '\'' then "&#x27;" else [c]
  }

  /** html.escape with quotes, character by character. */
  function Escape(s: string): string {
    if s == [] then [] else EscapeChar(s[0]) + Escape(s[1..])
  }

  function UnescapeHead(s: string): (r: (char, nat))
    requires s != []
    ensures 1 <= r.1 <= |s|
  {
    if "&amp;" <= s then ('&', 5) else if "&lt;" <= s then ('<', 4) else if "&gt;" <= s then ('>', 4)
    else if "&quot;" <= s then ('"', 6) else if "&#x27;" <= s then ('\'', 6) else (s[0], 1)
  }

  function Unescape(s: string): string
    decreases |s|
  {
    if s == [] then [] else var (c, n) := UnescapeHead(s); [c] + Unescape(s[n..])
  }

  lemma HeadOfEscape(c: char, rest: string)
    ensures UnescapeHead(EscapeChar(c) + rest) == (c, |EscapeChar(c)|)
  {
    var s := EscapeChar(c) + rest;
    assert forall i :: 0 <= i < |EscapeChar(c)| ==> s[i] == EscapeChar(c)[i];
    assert s[0] == if c in {'&', '<', '>', '"', '\''} then '&' else c;
    if c in {'&', '<', '>', '"', '\''} {
      assert s[1] == EscapeChar(c)[1];
      assert EscapeChar(c) <= s;
      assert "&amp;"[1] == 'a' && "&lt;"[1] == 'l' && "&gt;"[1] == 'g' && "&quot;"[1] == 'q' && "&#x27;"[1] == '#';
    } else {
      assert "&amp;"[0] == "&lt;"[0] == "&gt;"[0] == "&quot;"[0] == "&#x27;"[0] == '&';
    }
  }

  /** Escaping loses nothing, so two greetings give the same attribute only when they are equal. */
  lemma {:induction false} EscapeRoundTrip(s: string)
    ensures Unescape(Escape(s)) == s
  {
    if s != [] {
      HeadOfEscape(s[0], Escape(s[1..]));
      EscapeRoundTrip(s[1..]);
      var e := EscapeChar(s[0]) + Escape(s[1..]);
      assert e[|EscapeChar(s[0])|..] == Escape(s[1..]);
    }
  }

  predicate Plain(s: string) {
    forall i :: 0 <= i < |s| ==> s[i] !in {'&', '<', '>', '"', '\''}
  }

  lemma {:induction false} EscapePlain(s: string)
    requires Plain(s)
    ensures Escape(s) == s
  {
    if s != [] {
      EscapePlain(s[1..]);
    }
  }

  lemma {:induction false} NestAllPlain(items: Items)
    requires items != [] && forall j :: 0 <= j < |items| ==> ValidToken(items[j].1) && IsDigit(items[j].0)
    ensures Plain(NestAll(items))
  {
    if |items| > 1 {
      NestAllPlain(items[1..]);
      var s := NestAll(items[1..]);
      assert Plain(COND_OPEN) && Plain(COND_THEN) && Plain(COND_ELSE) && Plain(COND_CLOSE);
      assert Plain(s + COND_CLOSE);
      assert Plain(COND_ELSE + (s + COND_CLOSE));
      assert Plain(items[0].1 + (COND_ELSE + (s + COND_CLOSE)));
      assert Plain(COND_THEN + (items[0].1 + (COND_ELSE + (s + COND_CLOSE))));
    }
  }
}
