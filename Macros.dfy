/**
 * Path-macro substitution (lib/testUtils.js).
 *
 * A request or expected-result document is handled as its JSON text. Every
 * `{{expr}}` token found in that text is looked up in the execution context
 * with a JSON-path query, and a truthy result replaces the first occurrence
 * of the token's text in the text as it stands at that moment.
 *
 * The JSON-path query language is not modelled: it is the parameter `query`,
 * which maps a context and an expression to the list of matches.
 */
module Macros {
  import opened Wrappers

  /** The JavaScript values this code inspects. `Obj` stands for any object
      or array; `text` is what `String(value)` gives for it. Numbers are
      integers. */
  datatype JsValue =
    | Undefined
    | Null
    | Bool(b: bool)
    | Num(n: int)
    | Str(s: string)
    | Obj(text: string)

  /** JavaScript truthiness: `undefined`, `null`, `false`, `0` and `""` are falsy. */
  predicate Truthy(v: JsValue) {
    match v
    case Undefined => false
    case Null => false
    case Bool(b) => b
    case Num(n) => n != 0
    case Str(s) => s != ""
    case Obj(_) => true
  }

  function NatToString(n: nat): string
    decreases n
  {
    if n < 10 then ["0123456789"[n]] else NatToString(n / 10) + ["0123456789"[n % 10]]
  }

  /** `String(value)`, the text a value is spliced in as. */
  function Text(v: JsValue): string {
    match v
    case Undefined => "undefined"
    case Null => "null"
    case Bool(b) => if b then "true" else "false"
    case Num(n) => if n < 0 then "-" + NatToString(-n) else NatToString(n)
    case Str(s) => s
    case Obj(t) => t
  }

  /** `retrieve`: the first match of the query, or `undefined` when there is none. */
  function Retrieve<C>(context: C, expr: string, query: (C, string) -> seq<JsValue>): (r: JsValue)
    ensures |query(context, expr)| > 0 ==> r == query(context, expr)[0]
    ensures |query(context, expr)| == 0 ==> r == Undefined
  {
    var matches := query(context, expr);
    if |matches| > 0 then matches[0] else Undefined
  }

  // ---------------------------------------------------------------------
  // The token grammar: `{{`, a run of token characters, `}}`.
  // ---------------------------------------------------------------------

  /** The characters of the regular expression's class: letters, digits, `$`, `.`, `[`, `]` and `|`. */
  predicate IsTokenChar(c: char) {
    ('a' <= c <= 'z') || ('A' <= c <= 'Z') || ('0' <= c <= '9')
    || c == '$' || c == '.' || c == '[' || c == ']' || c == '|'
  }

  /** `s[i..j]` is a macro token. */
  predicate IsTokenAt(s: string, i: int, j: int) {
    0 <= i && i + 4 <= j <= |s| && s[i] == '{' && s[i + 1] == '{' && s[j - 2] == '}' && s[j - 1] == '}'
    && forall m :: i + 2 <= m < j - 2 ==> IsTokenChar(s[m])
  }

  /** The end of the run of token characters that starts at `p`. */
  function RunEnd(s: string, p: nat): (k: nat)
    requires p <= |s|
    ensures p <= k <= |s|
    ensures forall m :: p <= m < k ==> IsTokenChar(s[m])
    ensures k == |s| || !IsTokenChar(s[k])
    decreases |s| - p
  {
    if p < |s| && IsTokenChar(s[p]) then RunEnd(s, p + 1) else p
  }

  /** The end of the token that starts at `i`, if one does. The lazy `*?` of the
      source's expression changes nothing, since `}` is not a token character:
      at most one token starts at any position. */
  function MatchAt(s: string, i: nat): (r: Option<nat>)
    requires i <= |s|
    ensures r.Some? ==> IsTokenAt(s, i, r.value)
  {
    if i + 1 < |s| && s[i] == '{' && s[i + 1] == '{' then
      var k := RunEnd(s, i + 2);
      if k + 1 < |s| && s[k] == '}' && s[k + 1] == '}' then Some(k + 2) else None
    else None
  }

  /** A token starting at `i` is the one `MatchAt` finds. */
  lemma MatchAtFinds(s: string, i: nat, j: nat)
    requires IsTokenAt(s, i, j)
    ensures MatchAt(s, i) == Some(j)
  {
    assert !IsTokenChar(s[j - 2]);
  }

  /** The global match of the token expression from position `i`: tokens are
      taken left to right, each search resuming after the previous token. */
  function Scan(s: string, i: nat): (spans: seq<(nat, nat)>)
    requires i <= |s|
    ensures forall k :: 0 <= k < |spans| ==> i <= spans[k].0 <= spans[k].1 <= |s|
    decreases |s| - i
  {
    if i == |s| then []
    else match MatchAt(s, i)
      case Some(j) => [(i, j)] + Scan(s, j)
      case None => Scan(s, i + 1)
  }

  /** Every span found is a token at or after `i`, and the spans come in
      text order without overlapping. */
  lemma {:induction false} ScanSound(s: string, i: nat)
    requires i <= |s|
    ensures forall k :: 0 <= k < |Scan(s, i)| ==> IsTokenAt(s, Scan(s, i)[k].0, Scan(s, i)[k].1)
    ensures forall k :: 0 <= k < |Scan(s, i)| - 1 ==> Scan(s, i)[k].1 <= Scan(s, i)[k + 1].0
    decreases |s| - i
  {
    if i < |s| {
      var r := MatchAt(s, i);
      if r.Some? {
        var j := r.value;
        ScanSound(s, j);
        var rest := Scan(s, j);
        assert Scan(s, i) == [(i, j)] + rest;
      } else {
        ScanSound(s, i + 1);
      }
    }
  }

  /** Position `p` lies inside one of the spans. */
  predicate Covers(spans: seq<(nat, nat)>, p: int) {
    exists k :: 0 <= k < |spans| && spans[k].0 <= p < spans[k].1
  }

  /** No token is missed: every position where a token starts lies inside a found token. */
  lemma {:induction false} ScanComplete(s: string, i: nat, p: int)
    requires i <= p < |s| && MatchAt(s, p).Some?
    ensures Covers(Scan(s, i), p)
    decreases |s| - i
  {
    var spans := Scan(s, i);
    var r := MatchAt(s, i);
    if r.Some? {
      var j := r.value;
      var rest := Scan(s, j);
      assert spans == [(i, j)] + rest;
      if p < j {
        assert spans[0].0 <= p < spans[0].1;
      } else {
        ScanComplete(s, j, p);
        var k :| 0 <= k < |rest| && rest[k].0 <= p < rest[k].1;
        assert spans[k + 1] == rest[k];
      }
    } else {
      assert p != i;
      assert spans == Scan(s, i + 1);
      ScanComplete(s, i + 1, p);
    }
  }

  /** `requestTxt.match(...) || []`: the texts of the tokens, in order. */
  function Tokens(s: string): seq<string> {
    var spans := Scan(s, 0);
    seq(|spans|, k requires 0 <= k < |spans| => s[spans[k].0..spans[k].1])
  }

  /** `macros.replace(/\{|\}/g, "")`: every brace removed. */
  function RemoveBraces(t: string): string {
    if t == [] then [] else (if t[0] == '{' || t[0] == '}' then [] else [t[0]]) + RemoveBraces(t[1..])
  }

  // ---------------------------------------------------------------------
  // Replacement of the first occurrence of a string.
  // ---------------------------------------------------------------------

  predicate OccursAt(s: string, pat: string, i: int) {
    0 <= i && i + |pat| <= |s| && s[i..i + |pat|] == pat
  }

  /** `pat` occurs at `i` and nowhere before. */
  predicate FirstOccurrence(s: string, pat: string, i: int) {
    OccursAt(s, pat, i) && forall m :: 0 <= m < i ==> !OccursAt(s, pat, m)
  }

  /** The first occurrence of `pat` at or after `i`. */
  function FindFrom(s: string, pat: string, i: nat): (r: Option<nat>)
    requires i <= |s|
    ensures r.Some? ==> i <= r.value && OccursAt(s, pat, r.value)
    ensures r.Some? ==> forall m :: i <= m < r.value ==> !OccursAt(s, pat, m)
    ensures r.None? ==> forall m :: i <= m ==> !OccursAt(s, pat, m)
    decreases |s| - i
  {
    if OccursAt(s, pat, i) then Some(i)
    else if i + |pat| >= |s| then None
    else FindFrom(s, pat, i + 1)
  }

  /** `s.replace(pat, rep)` with a string pattern: only the first occurrence
      is replaced, everything around it is kept in order. */
  function ReplaceFirst(s: string, pat: string, rep: string): (r: string)
    ensures (forall m :: !OccursAt(s, pat, m)) ==> r == s
    ensures forall i :: FirstOccurrence(s, pat, i) ==> r == s[..i] + rep + s[i + |pat|..]
  {
    match FindFrom(s, pat, 0)
    case None => s
    case Some(i) => s[..i] + rep + s[i + |pat|..]
  }

  // ---------------------------------------------------------------------
  // Substitution.
  // ---------------------------------------------------------------------

  /** One pass of the `forEach` body: look the token up and, when the value
      is truthy, replace the first occurrence of the token's text. */
  function ResolveToken<C>(text: string, token: string, context: C, query: (C, string) -> seq<JsValue>): string {
    var value := Retrieve(context, RemoveBraces(token), query);
    if Truthy(value) then ReplaceFirst(text, token, Text(value)) else text
  }

  /** The tokens handled one after another against the current text. */
  function ResolveAll<C>(text: string, tokens: seq<string>, context: C, query: (C, string) -> seq<JsValue>): string
    decreases |tokens|
  {
    if tokens == [] then text
    else ResolveAll(ResolveToken(text, tokens[0], context, query), tokens[1..], context, query)
  }

  /** What `handleJsonPathMacros` makes of a document's text. */
  function Resolve<C>(text: string, context: C, query: (C, string) -> seq<JsValue>): string {
    ResolveAll(text, Tokens(text), context, query)
  }

  /** `handleJsonPathMacros`: the text is rebound once per token found in the original text. */
  method HandleJsonPathMacros<C>(request: string, context: C, query: (C, string) -> seq<JsValue>)
    returns (result: string)
    ensures result == Resolve(request, context, query)
  {
    var requestTxt := request;
    var macros := Tokens(request);
    for i := 0 to |macros|
      invariant ResolveAll(requestTxt, macros[i..], context, query) == ResolveAll(request, macros, context, query)
    {
      assert macros[i..][1..] == macros[i + 1..];
      var jsonPathExpr := RemoveBraces(macros[i]);
      var value := Retrieve(context, jsonPathExpr, query);
      if Truthy(value) {
        requestTxt := ReplaceFirst(requestTxt, macros[i], Text(value));
      }
    }
    assert macros[|macros|..] == [];
    result := requestTxt;
  }

  // ---------------------------------------------------------------------
  // Properties.
  // ---------------------------------------------------------------------

  lemma {:induction false} RemoveBracesAppend(a: string, b: string)
    ensures RemoveBraces(a + b) == RemoveBraces(a) + RemoveBraces(b)
    decreases |a|
  {
    if a != [] {
      assert (a + b)[0] == a[0];
      assert (a + b)[1..] == a[1..] + b;
      RemoveBracesAppend(a[1..], b);
    } else {
      assert a + b == b;
    }
  }

  lemma {:induction false} RemoveBracesOfTokenChars(t: string)
    requires forall m :: 0 <= m < |t| ==> IsTokenChar(t[m])
    ensures RemoveBraces(t) == t
    decreases |t|
  {
    if t != [] {
      RemoveBracesOfTokenChars(t[1..]);
    }
  }

  /** The lookup expression of a token is exactly the text between its braces. */
  lemma TokenExpression(s: string, i: nat, j: nat)
    requires IsTokenAt(s, i, j)
    ensures RemoveBraces(s[i..j]) == s[i + 2..j - 2]
  {
    var body := s[i + 2..j - 2];
    assert s[i..j] == "{{" + (body + "}}");
    RemoveBracesOfTokenChars(body);
    RemoveBracesAppend("{{", body + "}}");
    RemoveBracesAppend(body, "}}");
    assert RemoveBraces("{{") == [] && RemoveBraces("}}") == [];
    assert RemoveBraces(body + "}}") == body;
  }

  /** No token of the text is missed: each one starts inside a token found. */
  lemma NoTokenMissed(s: string)
    ensures forall p, q :: IsTokenAt(s, p, q) ==> Covers(Scan(s, 0), p)
  {
    forall p, q | IsTokenAt(s, p, q)
      ensures Covers(Scan(s, 0), p)
    {
      MatchAtFinds(s, p, q);
      ScanComplete(s, 0, p);
    }
  }

  /** Every token found is a well-formed token of the text, the tokens come
      in text order without overlapping, and each one's lookup expression is
      the text between its braces. */
  lemma TokensFound(s: string)
    ensures |Tokens(s)| == |Scan(s, 0)|
    ensures forall k :: 0 <= k < |Scan(s, 0)| ==>
              var (a, b) := Scan(s, 0)[k];
              IsTokenAt(s, a, b) && Tokens(s)[k] == s[a..b] && RemoveBraces(Tokens(s)[k]) == s[a + 2..b - 2]
    ensures forall k :: 0 <= k < |Scan(s, 0)| - 1 ==> Scan(s, 0)[k].1 <= Scan(s, 0)[k + 1].0
  {
    var spans := Scan(s, 0);
    ScanSound(s, 0);
    forall k | 0 <= k < |spans|
      ensures RemoveBraces(Tokens(s)[k]) == s[spans[k].0 + 2..spans[k].1 - 2]
    {
      TokenExpression(s, spans[k].0, spans[k].1);
    }
  }

  /** A token whose lookup finds nothing or a falsy value stays verbatim; when
      that holds for every token, the text comes back unchanged. */
  lemma {:induction false} FalsyLookupsKeepText<C>(text: string, tokens: seq<string>, context: C, query: (C, string) -> seq<JsValue>)
    requires forall k :: 0 <= k < |tokens| ==> !Truthy(Retrieve(context, RemoveBraces(tokens[k]), query))
    ensures ResolveAll(text, tokens, context, query) == text
    decreases |tokens|
  {
    if tokens != [] {
      assert !Truthy(Retrieve(context, RemoveBraces(tokens[0]), query));
      FalsyLookupsKeepText(text, tokens[1..], context, query);
    }
  }

  /** A text without tokens comes back unchanged, so resolving it twice gives the same text. */
  lemma MacroFreeUnchanged<C>(text: string, context: C, query: (C, string) -> seq<JsValue>)
    requires Tokens(text) == []
    ensures Resolve(text, context, query) == text
    ensures Resolve(Resolve(text, context, query), context, query) == Resolve(text, context, query)
  {
  }

  /** `{{` starts at `m`. */
  predicate PairAt(s: string, m: int) {
    0 <= m && m + 1 < |s| && s[m] == '{' && s[m + 1] == '{'
  }

  /** Positions where no `{{` starts contribute no token. */
  lemma {:induction false} ScanSkip(s: string, i: nat, j: nat)
    requires i <= j <= |s|
    requires forall m :: i <= m < j ==> !PairAt(s, m)
    ensures Scan(s, i) == Scan(s, j)
    decreases j - i
  {
    if i < j {
      assert !PairAt(s, i);
      ScanSkip(s, i + 1, j);
    }
  }

  /** A text holding one token and no other `{{` resolves by splicing that
      token's value in its place when the value is truthy, and not at all otherwise. */
  lemma SingleToken<C>(s: string, i: nat, j: nat, context: C, query: (C, string) -> seq<JsValue>)
    requires IsTokenAt(s, i, j)
    requires forall m :: 0 <= m < i ==> !PairAt(s, m)
    requires forall m :: j <= m < |s| ==> !PairAt(s, m)
    ensures Tokens(s) == [s[i..j]]
    ensures var v := Retrieve(context, s[i + 2..j - 2], query);
            Resolve(s, context, query) == if Truthy(v) then s[..i] + Text(v) + s[j..] else s
  {
    ScanSkip(s, 0, i);
    MatchAtFinds(s, i, j);
    ScanSkip(s, j, |s|);
    assert Scan(s, i) == [(i, j)];
    var tok := s[i..j];
    assert Tokens(s) == [tok];
    TokenExpression(s, i, j);
    var v := Retrieve(context, s[i + 2..j - 2], query);
    assert OccursAt(s, tok, i);
    forall m | m < i ensures !OccursAt(s, tok, m) {
      if 0 <= m && m + |tok| <= |s| {
        assert !PairAt(s, m);
        assert tok[0] == '{' && tok[1] == '{';
        assert s[m..m + |tok|][0] == s[m] && s[m..m + |tok|][1] == s[m + 1];
      }
    }
    assert ResolveAll(s, [tok], context, query) == ResolveToken(s, tok, context, query);
  }

  /** The document `{"x":"{{$.a.b}}"}`, against a context where `$.a.b` is 5, becomes `{"x":"5"}`. */
  lemma ResolveNumberExample<C>(s: string, context: C, query: (C, string) -> seq<JsValue>)
    requires s == "{\"x\":\"{{$.a.b}}\"}"
    requires |query(context, "$.a.b")| > 0 && query(context, "$.a.b")[0] == Num(5)
    ensures Resolve(s, context, query) == "{\"x\":\"" + "5" + "\"}"
  {
    assert IsTokenAt(s, 6, 15);
    assert forall m :: 0 <= m < 6 ==> !PairAt(s, m);
    assert forall m :: 15 <= m < |s| ==> !PairAt(s, m);
    SingleToken(s, 6, 15, context, query);
    assert s[8] == '$' && s[9] == '.' && s[10] == 'a' && s[11] == '.' && s[12] == 'b';
    assert s[8..13] == "$.a.b";
    assert Text(Num(5)) == "5";
    assert s[..6] == "{\"x\":\"";
    assert s[15..] == "\"}";
  }

  lemma RepeatedTokensFound(s: string)
    requires s == "{{a}}-{{a}}"
    ensures Tokens(s) == ["{{a}}", "{{a}}"]
  {
    assert IsTokenAt(s, 0, 5) && IsTokenAt(s, 6, 11);
    MatchAtFinds(s, 0, 5);
    MatchAtFinds(s, 6, 11);
    ScanSkip(s, 5, 6);
    ScanSkip(s, 11, 11);
    assert Scan(s, 6) == [(6, 11)];
    assert Scan(s, 0) == [(0, 5), (6, 11)];
    assert s[0..5] == "{{a}}" && s[6..11] == "{{a}}";
  }

  lemma ReplaceFirstAtStart(s: string, pat: string, rep: string)
    requires |pat| <= |s| && s[..|pat|] == pat
    ensures ReplaceFirst(s, pat, rep) == rep + s[|pat|..]
  {
    assert FirstOccurrence(s, pat, 0);
    assert ReplaceFirst(s, pat, rep) == s[..0] + rep + s[|pat|..];
    assert s[..0] == [];
  }

  lemma SecondReplacement(t: string)
    requires t == "x-{{a}}"
    ensures ReplaceFirst(t, "{{a}}", "x") == "x-x"
  {
    var tok := "{{a}}";
    assert OccursAt(t, tok, 2);
    assert !OccursAt(t, tok, 0) && !OccursAt(t, tok, 1) by {
      assert t[0] != '{' && t[1] != '{';
    }
    assert FirstOccurrence(t, tok, 2);
    assert t[..2] == "x-" && t[7..] == [];
  }

  /** Two equal tokens are both found, and each hit replaces the first
      occurrence left in the current text: `{{a}}-{{a}}` becomes `x-x`. */
  lemma RepeatedTokenExample<C>(s: string, context: C, query: (C, string) -> seq<JsValue>)
    requires s == "{{a}}-{{a}}"
    requires |query(context, "a")| > 0 && query(context, "a")[0] == Str("x")
    ensures Tokens(s) == ["{{a}}", "{{a}}"]
    ensures Resolve(s, context, query) == "x-x"
  {
    var tok := "{{a}}";
    RepeatedTokensFound(s);
    var t := "x" + s[5..];
    assert RemoveBraces(tok) == "a" by {
      assert IsTokenAt(s, 0, 5);
      TokenExpression(s, 0, 5);
      assert s[0..5] == tok && s[2..3] == "a";
    }
    assert Retrieve(context, "a", query) == Str("x");
    assert ResolveToken(s, tok, context, query) == t by {
      ReplaceFirstAtStart(s, tok, "x");
    }
    assert ResolveToken(t, tok, context, query) == "x-x" by {
      assert s[5..] == "-{{a}}";
      SecondReplacement(t);
    }
    ResolveTwo(s, tok, t, context, query);
  }

  /** Resolving a text with two tokens applies the two resolutions in turn. */
  lemma ResolveTwo<C>(s: string, tok: string, t: string, context: C, query: (C, string) -> seq<JsValue>)
    requires Tokens(s) == [tok, tok]
    requires ResolveToken(s, tok, context, query) == t
    ensures Resolve(s, context, query) == ResolveToken(t, tok, context, query)
  {
    var u := ResolveToken(t, tok, context, query);
    assert [tok, tok][1..] == [tok];
    assert [tok][1..] == [];
    assert ResolveAll(u, [], context, query) == u;
    assert ResolveAll(t, [tok], context, query) == u;
    assert ResolveAll(s, [tok, tok], context, query) == ResolveAll(t, [tok], context, query);
  }
}
