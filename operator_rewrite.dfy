/** The admin listing's filter text: the parsed query string serialised with
    `JSON.stringify`, then the textual rewrite that puts `$` before every whole
    word `gt`, `gte`, `lt`, `lte` or `in` (the regular expression
    `\b(gt|gte|lt|lte|in)\b`, applied globally). */
module OperatorRewrite {
  import opened Common

  /** A value of the parsed query string: a string, an array (a repeated key) or a
      nested object (a bracketed key such as `status[gte]`). Fields are serialised in the
      order given here. */
  datatype Param = Str(s: string) | Arr(items: seq<Param>) | Obj(fields: seq<Field>)
  datatype Field = Field(key: string, value: Param)

  // ---------------------------------------------------------------------------
  // JSON.stringify

  function HexDigit(d: nat): char
    requires d < 16
  {
    if d < 10 then DigitChar(d) else ('a' as int + d - 10) as char
  }

  /** How `JSON.stringify` writes one character inside a string literal. */
  function EscapeChar(c: char): string {
    if c == '"' then "\\\""
    else if c == '\\' then "\\\\"
    else if c as int == 8 then "\\b"
    else if c as int == 9 then "\\t"
    else if c as int == 10 then "\\n"
    else if c as int == 12 then "\\f"
    else if c as int == 13 then "\\r"
    else if c as int < 0x20 then "\\u00" + [HexDigit(c as int / 16), HexDigit(c as int % 16)]
    else [c]
  }

  function Escape(s: string): string {
    if s == [] then [] else EscapeChar(s[0]) + Escape(s[1..])
  }

  function Quote(s: string): string {
    "\"" + Escape(s) + "\""
  }

  /** `JSON.stringify` of a query value: no whitespace, fields in the order given. */
  function Json(p: Param): string {
    match p
    case Str(s) => Quote(s)
    case Arr(items) =>
      "[" + Join(seq(|items|, i requires 0 <= i < |items| => Json(items[i])), ",") + "]"
    case Obj(fields) =>
      "{" + Join(seq(|fields|, i requires 0 <= i < |fields| => JsonField(fields[i])), ",") + "}"
  }

  function JsonField(f: Field): string {
    Quote(f.key) + ":" + Json(f.value)
  }

  /** A character `JSON.stringify` writes as it is inside a string literal. */
  predicate PlainChar(c: char) {
    c != '"' && c != '\\' && c as int >= 0x20
  }

  lemma {:induction false} EscapePlain(s: string)
    requires forall i :: 0 <= i < |s| ==> PlainChar(s[i])
    ensures Escape(s) == s
  {
    if s != [] {
      EscapePlain(s[1..]);
      assert s == [s[0]] + s[1..];
    }
  }

  /** An object with one string field whose key and value need no escaping is written
      `{"key":"value"}`. */
  lemma JsonOfPlainField(k: string, v: string)
    requires forall i :: 0 <= i < |k| ==> PlainChar(k[i])
    requires forall i :: 0 <= i < |v| ==> PlainChar(v[i])
    ensures Json(Obj([Field(k, Str(v))])) == "{\"" + k + "\":\"" + v + "\"}"
  {
    var f := Field(k, Str(v));
    JsonFieldPlain(k, v);
    JsonSingle(f);
    Reassociate("{", "\"" + k + "\":\"", v, "\"", "}");
    assert "{" + ("\"" + k + "\":\"") == "{\"" + k + "\":\"";
    assert "\"" + "}" == "\"}";
  }

  lemma JsonFieldPlain(k: string, v: string)
    requires forall i :: 0 <= i < |k| ==> PlainChar(k[i])
    requires forall i :: 0 <= i < |v| ==> PlainChar(v[i])
    ensures JsonField(Field(k, Str(v))) == "\"" + k + "\":\"" + v + "\""
  {
    EscapePlain(k);
    EscapePlain(v);
  }

  lemma JsonSingle(f: Field)
    ensures Json(Obj([f])) == "{" + JsonField(f) + "}"
  {
  }

  // ---------------------------------------------------------------------------
  // The operator rewrite

  /** A character matched by `\w` (and so on the word side of `\b`). */
  predicate IsWordChar(c: char) {
    'a' <= c <= 'z' || 'A' <= c <= 'Z' || '0' <= c <= '9' || c == '_'
  }

  /** The length of the run of word characters that `s` starts with. */
  function WordRun(s: string): (n: nat)
    ensures n <= |s|
    ensures forall i :: 0 <= i < n ==> IsWordChar(s[i])
    ensures n < |s| ==> !IsWordChar(s[n])
  {
    if s == [] || !IsWordChar(s[0]) then 0 else 1 + WordRun(s[1..])
  }

  predicate IsOperator(w: string) {
    w == "gt" || w == "gte" || w == "lt" || w == "lte" || w == "in"
  }

  /** The number of maximal word runs of `s` that are operator names. */
  function CountOperators(s: string): nat
    decreases |s|
  {
    if s == [] then 0
    else if !IsWordChar(s[0]) then CountOperators(s[1..])
    else
      var n := WordRun(s);
      (if IsOperator(s[..n]) then 1 else 0) + CountOperators(s[n..])
  }

  /** `queryStr.replace(/\b(gt|gte|lt|lte|in)\b/g, m => "$" + m)`. Because the match is
      bracketed by word boundaries it is always a whole maximal run of word characters,
      so the text is rewritten run by run. */
  function Rewrite(s: string): (r: string)
    ensures |r| == |s| + CountOperators(s)
    decreases |s|
  {
    if s == [] then []
    else if !IsWordChar(s[0]) then [s[0]] + Rewrite(s[1..])
    else
      var n := WordRun(s);
      var w := s[..n];
      (if IsOperator(w) then "$" + w else w) + Rewrite(s[n..])
  }

  /** Removes the `$` in front of every operator word: the inverse of `Rewrite`. */
  function Restore(t: string): string
    decreases |t|
  {
    if t == [] then []
    else if t[0] == '$' && IsOperator(t[1..][..WordRun(t[1..])]) then Restore(t[1..])
    else if !IsWordChar(t[0]) then [t[0]] + Restore(t[1..])
    else
      var n := WordRun(t);
      t[..n] + Restore(t[n..])
  }

  lemma WordRunOfPrefixed(w: string, rest: string)
    requires forall i :: 0 <= i < |w| ==> IsWordChar(w[i])
    requires rest == [] || !IsWordChar(rest[0])
    ensures WordRun(w + rest) == |w|
    ensures (w + rest)[..|w|] == w
  {
    if w != [] {
      assert (w + rest)[1..] == w[1..] + rest;
      WordRunOfPrefixed(w[1..], rest);
    }
  }

  /** The rewritten text of a text that starts with a non-word character starts with it too. */
  lemma RewriteKeepsHead(s: string)
    requires s != [] && !IsWordChar(s[0])
    ensures Rewrite(s) != [] && Rewrite(s)[0] == s[0]
  {
  }

  /** The word the rewritten text starts with, if any, is never an operator name. */
  lemma {:induction false} RewriteHeadNotOperator(s: string)
    ensures var t := Rewrite(s); !IsOperator(t[..WordRun(t)])
  {
    var t := Rewrite(s);
    if s == [] {
    } else if !IsWordChar(s[0]) {
      RewriteKeepsHead(s);
      assert WordRun(t) == 0;
    } else {
      var n := WordRun(s);
      var w := s[..n];
      var rest := Rewrite(s[n..]);
      if n < |s| { RewriteKeepsHead(s[n..]); }
      if IsOperator(w) {
        assert t[0] == '$';
      } else {
        assert t == w + rest;
        WordRunOfPrefixed(w, rest);
      }
    }
  }

  /** Deleting the inserted `$` signs gives back the original text. */
  lemma {:induction false} RestoreRewrite(s: string)
    ensures Restore(Rewrite(s)) == s
    decreases |s|, 1
  {
    if s == [] {
    } else if !IsWordChar(s[0]) {
      RestoreRewriteSymbol(s);
    } else {
      RestoreRewriteWord(s);
    }
  }

  lemma {:induction false} RestoreRewriteSymbol(s: string)
    requires s != [] && !IsWordChar(s[0])
    ensures Restore(Rewrite(s)) == s
    decreases |s|, 0
  {
    var rest := Rewrite(s[1..]);
    var t := [s[0]] + rest;
    assert Rewrite(s) == t;
    assert t[1..] == rest;
    RewriteHeadNotOperator(s[1..]);
    RestoreRewrite(s[1..]);
    assert Restore(t) == [s[0]] + Restore(rest);
    assert s == [s[0]] + s[1..];
  }

  lemma {:induction false} RestoreRewriteWord(s: string)
    requires s != [] && IsWordChar(s[0])
    ensures Restore(Rewrite(s)) == s
    decreases |s|, 0
  {
    var n := WordRun(s);
    var w := s[..n];
    var rest := Rewrite(s[n..]);
    var u := w + rest;
    assert WordRun(u) == n && u[..n] == w && u[n..] == rest by {
      if n < |s| { RewriteKeepsHead(s[n..]); }
      WordRunOfPrefixed(w, rest);
    }
    RestoreRewrite(s[n..]);
    RestoreOfWord(u, n);
    assert Restore(u) == s by {
      assert Restore(u) == w + s[n..];
      assert s == w + s[n..];
    }
    var t := Rewrite(s);
    RewriteOfWordHead(s);
    if IsOperator(w) {
      SeqAssoc(['$'], w, rest);
      assert t == ['$'] + u;
      RestoreOfMarked(u, n);
    } else {
      assert t == u;
    }
  }

  /** How `Rewrite` handles the word a text starts with. */
  lemma RewriteOfWordHead(s: string)
    requires s != [] && IsWordChar(s[0])
    ensures var n := WordRun(s);
      Rewrite(s) == (if IsOperator(s[..n]) then ['$'] + s[..n] else s[..n]) + Rewrite(s[n..])
  {
  }

  /** A text that starts with a whole word keeps the word. */
  lemma RestoreOfWord(u: string, n: nat)
    requires 0 < n == WordRun(u)
    ensures Restore(u) == u[..n] + Restore(u[n..])
  {
  }

  /** A `$` in front of an operator word is dropped. */
  lemma RestoreOfMarked(u: string, n: nat)
    requires n == WordRun(u) && IsOperator(u[..n])
    ensures Restore(['$'] + u) == Restore(u)
  {
    var t := ['$'] + u;
    assert t[1..] == u;
  }

  /** Two texts that do not meet inside a word are rewritten independently. */
  lemma {:induction false} RewriteConcat(a: string, b: string)
    requires a == [] || b == [] || !IsWordChar(a[|a| - 1]) || !IsWordChar(b[0])
    ensures Rewrite(a + b) == Rewrite(a) + Rewrite(b)
    decreases |a|, 1
  {
    if a == [] {
      assert a + b == b;
    } else if !IsWordChar(a[0]) {
      RewriteConcatSymbol(a, b);
    } else {
      RewriteConcatWord(a, b);
    }
  }

  lemma {:induction false} RewriteConcatSymbol(a: string, b: string)
    requires a != [] && !IsWordChar(a[0])
    requires b == [] || !IsWordChar(a[|a| - 1]) || !IsWordChar(b[0])
    ensures Rewrite(a + b) == Rewrite(a) + Rewrite(b)
    decreases |a|, 0
  {
    assert (a + b)[1..] == a[1..] + b;
    assert a[1..] != [] ==> a[1..][|a[1..]| - 1] == a[|a| - 1];
    RewriteConcat(a[1..], b);
    var x, y := Rewrite(a[1..]), Rewrite(b);
    assert Rewrite(a + b) == [a[0]] + (x + y);
    assert Rewrite(a) == [a[0]] + x;
    SeqAssoc([a[0]], x, y);
  }

  lemma {:induction false} RewriteConcatWord(a: string, b: string)
    requires a != [] && IsWordChar(a[0])
    requires b == [] || !IsWordChar(a[|a| - 1]) || !IsWordChar(b[0])
    ensures Rewrite(a + b) == Rewrite(a) + Rewrite(b)
    decreases |a|, 0
  {
    var n := WordRun(a);
    WordRunConcat(a, b);
    var w := a[..n];
    assert (a + b)[..n] == w;
    assert (a + b)[n..] == a[n..] + b;
    assert a[n..] != [] ==> a[n..][|a[n..]| - 1] == a[|a| - 1];
    RewriteConcat(a[n..], b);
    var op := if IsOperator(w) then "$" + w else w;
    var x, y := Rewrite(a[n..]), Rewrite(b);
    assert Rewrite(a + b) == op + (x + y);
    assert Rewrite(a) == op + x;
    SeqAssoc(op, x, y);
  }

  lemma Reassociate(a: string, b: string, c: string, d: string, e: string)
    ensures a + b + c + d + e == a + (b + (c + (d + e)))
  {
    SeqAssoc(a + b + c, d, e);
    SeqAssoc(a + b, c, d + e);
    SeqAssoc(a, b, c + (d + e));
  }

  lemma {:induction false} WordRunConcat(a: string, b: string)
    requires a == [] || b == [] || !IsWordChar(a[|a| - 1]) || !IsWordChar(b[0])
    ensures WordRun(a + b) == if a == [] then WordRun(b) else WordRun(a)
    decreases |a|
  {
    if a == [] {
      assert a + b == b;
    } else if !IsWordChar(a[0]) {
    } else {
      assert (a + b)[1..] == a[1..] + b;
      WordRunConcat(a[1..], b);
      if a[1..] == [] {
        assert b == [] || !IsWordChar(b[0]);
        assert WordRun(b) == 0;
      }
    }
  }

  /** A whole word after the rewrite: prefixed with `$` when it is an operator name. */
  function Marked(w: string): string {
    if IsOperator(w) then "$" + w else w
  }

  /** A whole word is rewritten exactly when it is an operator name. */
  lemma RewriteWord(w: string)
    requires w != [] && forall i :: 0 <= i < |w| ==> IsWordChar(w[i])
    ensures Rewrite(w) == Marked(w)
  {
    WordRunOfPrefixed(w, []);
    assert w + [] == w;
  }

  /** A single non-word character is left as it is. */
  lemma RewriteSymbol(c: char)
    requires !IsWordChar(c)
    ensures Rewrite([c]) == [c]
  {
  }

  /** The listing's example: the status value "in-transit" is rewritten as well, since
      `-` is a word boundary, while a value without an operator word is left alone. */
  lemma RewriteReachesValues()
    ensures Rewrite("\"in-transit\"") == "\"$in-transit\""
  {
    var q, dash, op, tail := "\"", "-", "in", "transit";
    RewriteWord(op);
    RewriteWord(tail);
    MarkedInTransit();
    RewriteSymbol('"');
    RewriteSymbol('-');
    RewriteConcat(tail, q);
    RewriteConcat(dash, tail + q);
    RewriteConcat(op, dash + (tail + q));
    RewriteConcat(q, op + (dash + (tail + q)));
    InTransitPieces();
  }

  lemma MarkedInTransit()
    ensures Marked("in") == "$" + "in" && Marked("transit") == "transit"
  {
  }

  lemma InTransitPieces()
    ensures "\"" + ("in" + ("-" + ("transit" + "\""))) == "\"in-transit\""
    ensures "\"" + ("$" + "in" + ("-" + ("transit" + "\""))) == "\"$in-transit\""
  {
  }

  /** A text without word characters is left as it is. */
  lemma {:induction false} RewriteSymbols(s: string)
    requires forall i :: 0 <= i < |s| ==> !IsWordChar(s[i])
    ensures Rewrite(s) == s
  {
    if s != [] {
      RewriteSymbols(s[1..]);
      assert s == [s[0]] + s[1..];
    }
  }

  /** The text of an object with one field whose key and value are single words: each
      word gains a `$` exactly when it is an operator name. */
  lemma RewriteWordPair(k: string, v: string)
    requires k != [] && forall i :: 0 <= i < |k| ==> IsWordChar(k[i])
    requires v != [] && forall i :: 0 <= i < |v| ==> IsWordChar(v[i])
    ensures Rewrite("{\"" + k + "\":\"" + v + "\"}") == "{\"" + Marked(k) + "\":\"" + Marked(v) + "\"}"
  {
    var a, c, e := "{\"", "\":\"", "\"}";
    RewriteSymbols(a);
    RewriteSymbols(c);
    RewriteSymbols(e);
    RewriteWord(k);
    RewriteWord(v);
    RewriteConcat(v, e);
    RewriteConcat(c, v + e);
    RewriteConcat(k, c + (v + e));
    RewriteConcat(a, k + (c + (v + e)));
    Reassociate(a, k, c, v, e);
    Reassociate(a, Marked(k), c, Marked(v), e);
  }
}
