/** The comment-stripping scan of the JSON5 loader, before trailing commas are dealt with. */
module Json5Scan {
  datatype Kind = Quoted | LineComment | BlockComment | Plain

  datatype Token = Token(kind: Kind, text: string)

  /** Position after the literal that starts at 0; a backslash shields the next character. */
  function QuotedEnd(s: string, k: nat, quote: char): (e: nat)
    requires k <= |s|
    ensures k <= e <= |s|
    decreases |s| - k
  {
    if k == |s| then k
    else if s[k] == '\\' && k + 1 < |s| then QuotedEnd(s, k + 2, quote)
    else if s[k] == quote then k + 1
    else QuotedEnd(s, k + 1, quote)
  }

  /** Whether the literal is closed before the text ends. */
  predicate QuotedClosed(s: string, k: nat, quote: char)
    requires k <= |s|
    decreases |s| - k
  {
    if k == |s| then false
    else if s[k] == '\\' && k + 1 < |s| then QuotedClosed(s, k + 2, quote)
    else s[k] == quote || QuotedClosed(s, k + 1, quote)
  }

  function LineEnd(s: string, k: nat): (e: nat)
    requires k <= |s|
    ensures k <= e <= |s|
    decreases |s| - k
  {
    if k == |s| || s[k] == '\n' then k else LineEnd(s, k + 1)
  }

  predicate EndsBlock(s: string, k: nat) {
    k + 1 < |s| && s[k] == '*' && s[k + 1] == '/'
  }

  /** Position after the first end of comment from `k` on, or the end of the text. */
  function BlockEnd(s: string, k: nat): (e: nat)
    requires k <= |s|
    ensures k <= e <= |s|
    decreases |s| - k
  {
    if k == |s| then k else if EndsBlock(s, k) then k + 2 else BlockEnd(s, k + 1)
  }

  predicate BlockClosed(s: string, k: nat)
    requires k <= |s|
    decreases |s| - k
  {
    k < |s| && (EndsBlock(s, k) || BlockClosed(s, k + 1))
  }

  predicate IsQuote(c: char) {
    c == '"' || c == '\''
  }

  function First(s: string): (t: Token)
    requires s != ""
    ensures t.text != "" && t.text <= s
    ensures t.kind == Plain ==> t.text == s[..1]
  {
    if IsQuote(s[0]) then Token(Quoted, s[..QuotedEnd(s, 1, s[0])])
    else if s[0] == '/' && |s| > 1 && s[1] == '/' then Token(LineComment, s[..LineEnd(s, 1)])
    else if s[0] == '/' && |s| > 1 && s[1] == '*' then Token(BlockComment, s[..BlockEnd(s, 2)])
    else Token(Plain, s[..1])
  }

  function Tokenize(s: string): seq<Token>
    decreases |s|
  {
    if s == "" then [] else [First(s)] + Tokenize(s[|First(s).text|..])
  }

  predicate IsKept(t: Token) {
    t.kind == Quoted || t.kind == Plain
  }

  function Kept(tokens: seq<Token>): seq<Token> {
    if tokens == [] then []
    else if IsKept(tokens[0]) then [tokens[0]] + Kept(tokens[1..])
    else Kept(tokens[1..])
  }

  function Render(tokens: seq<Token>): string {
    if tokens == [] then "" else tokens[0].text + Render(tokens[1..])
  }

  /** What the scan leaves: string literals and plain characters, verbatim and in order. */
  function Strip(s: string): string {
    Render(Kept(Tokenize(s)))
  }

  lemma Assoc<T>(a: seq<T>, b: seq<T>, c: seq<T>)
    ensures (a + b) + c == a + (b + c)
  {
  }

  lemma {:induction false} StripStep(s: string)
    requires s != ""
    ensures var t := First(s);
            var rest := s[|t.text|..];
            && Kept(Tokenize(s)) == (if IsKept(t) then [t] else []) + Kept(Tokenize(rest))
            && Strip(s) == (if IsKept(t) then t.text else "") + Strip(rest)
  {
    var t := First(s);
    assert Tokenize(s)[1..] == Tokenize(s[|t.text|..]);
    if IsKept(t) {
      assert ([t] + Kept(Tokenize(s[|t.text|..])))[1..] == Kept(Tokenize(s[|t.text|..]));
    }
  }

  /** Tokens are a partition of the text. */
  lemma {:induction false} TokensCover(s: string)
    ensures Render(Tokenize(s)) == s
    decreases |s|
  {
    if s != "" {
      var t := First(s);
      TokensCover(s[|t.text|..]);
      assert Tokenize(s)[1..] == Tokenize(s[|t.text|..]);
      assert s == t.text + s[|t.text|..];
    }
  }

  /** The scan, as an index loop. */
  method StripComments(text: string) returns (out: string)
    ensures out == Strip(text)
  {
    out := "";
    var i := 0;
    while i < |text|
      invariant 0 <= i <= |text| && out + Strip(text[i..]) == Strip(text)
      decreases |text| - i
    {
      StepAgrees(text, i, out);
      i, out := NextToken(text, i, out);
    }
    assert text[|text|..] == "";
  }

  lemma StepAgrees(text: string, i: nat, out: string)
    requires i < |text|
    ensures var t := First(text[i..]);
            out + Strip(text[i..]) == out + (if IsKept(t) then t.text else "") + Strip(text[i + |t.text|..])
  {
    var t := First(text[i..]);
    StripStep(text[i..]);
    assert text[i..][|t.text|..] == text[i + |t.text|..];
    Assoc(out, if IsKept(t) then t.text else "", Strip(text[i + |t.text|..]));
  }

  /** One turn: copies a literal or a plain character, or skips a comment. */
  method NextToken(text: string, start: nat, before: string) returns (i: nat, out: string)
    requires start < |text|
    ensures var t := First(text[start..]);
            i == start + |t.text| && out == before + (if IsKept(t) then t.text else "")
  {
    ghost var s := text[start..];
    i, out := start, before;
    var c := text[i];
    if IsQuote(c) {
      i, out := CopyLiteral(text, i, out);
      assert text[start..i] == s[..i - start];
    } else if c == '/' && i + 1 < |text| && text[i + 1] == '/' {
      i := SkipLine(text, i);
    } else if c == '/' && i + 1 < |text| && text[i + 1] == '*' {
      i := SkipBlock(text, i);
    } else {
      out := out + [c];
      i := i + 1;
    }
  }

  /** Copies a literal up to and including its closing quote. */
  method CopyLiteral(text: string, start: nat, before: string) returns (i: nat, out: string)
    requires start < |text| && IsQuote(text[start])
    ensures start < i <= |text| && i == start + QuotedEnd(text[start..], 1, text[start])
    ensures out == before + text[start..i]
  {
    var quote := text[start];
    out := before + [quote];
    i := start + 1;
    ghost var s := text[start..];
    while i < |text|
      invariant start < i <= |text| && out == before + text[start..i]
      invariant QuotedEnd(s, i - start, quote) == QuotedEnd(s, 1, quote)
    {
      var ch := text[i];
      out := out + [ch];
      assert text[start..i + 1] == text[start..i] + [ch];
      if ch == '\\' && i + 1 < |text| {
        out := out + [text[i + 1]];
        assert text[start..i + 2] == text[start..i + 1] + [text[i + 1]];
        i := i + 2;
        continue;
      }
      i := i + 1;
      if ch == quote {
        return;
      }
    }
  }

  method SkipLine(text: string, start: nat) returns (i: nat)
    requires start + 1 < |text| && text[start] == '/' && text[start + 1] == '/'
    ensures start < i <= |text| && i == start + LineEnd(text[start..], 1)
  {
    i := start;
    ghost var s := text[start..];
    while i < |text| && text[i] != '\n'
      invariant start <= i <= |text| && LineEnd(s, i - start) == LineEnd(s, 0)
    {
      i := i + 1;
    }
  }

  method SkipBlock(text: string, start: nat) returns (i: nat)
    requires start + 1 < |text| && text[start] == '/' && text[start + 1] == '*'
    ensures start < i <= |text| && i == start + BlockEnd(text[start..], 2)
  {
    i := start + 2;
    ghost var s := text[start..];
    while i < |text| && !(text[i] == '*' && i + 1 < |text| && text[i + 1] == '/')
      invariant start + 2 <= i <= |text| && BlockEnd(s, i - start) == BlockEnd(s, 2)
    {
      i := i + 1;
    }
    i := if i + 2 < |text| then i + 2 else |text|;
  }

  // ----- What may follow a token without changing it -----

  /** Nothing in `x` continues this token. */
  predicate Settles(t: Token, x: string)
    requires t.text != ""
  {
    match t.kind
    case Quoted => x == "" || QuotedClosed(t.text, 1, t.text[0])
    case LineComment => x == "" || x[0] == '\n'
    case BlockComment => x == "" || (|t.text| >= 2 && BlockClosed(t.text, 2))
    case Plain => t.text != "/" || x == "" || (x[0] != '/' && x[0] != '*')
  }

  lemma {:induction false} QuotedKeeps(s: string, x: string, k: nat, quote: char)
    requires k <= |s| && IsQuote(quote) && QuotedClosed(s, k, quote)
    ensures QuotedClosed(s + x, k, quote) && QuotedEnd(s + x, k, quote) == QuotedEnd(s, k, quote)
    decreases |s| - k
  {
    if s[k] == '\\' && k + 1 < |s| {
      QuotedKeeps(s, x, k + 2, quote);
    } else if s[k] != quote {
      QuotedKeeps(s, x, k + 1, quote);
    }
  }

  lemma {:induction false} QuotedOpen(s: string, k: nat, quote: char)
    requires k <= |s|
    ensures QuotedEnd(s, k, quote) < |s| ==> QuotedClosed(s, k, quote)
    decreases |s| - k
  {
    if k < |s| && s[k] == '\\' && k + 1 < |s| {
      QuotedOpen(s, k + 2, quote);
    } else if k < |s| {
      QuotedOpen(s, k + 1, quote);
    }
  }

  lemma {:induction false} LineKeeps(s: string, x: string, k: nat)
    requires k <= |s| && (LineEnd(s, k) < |s| || x == "" || x[0] == '\n')
    ensures LineEnd(s + x, k) == LineEnd(s, k)
    decreases |s| - k
  {
    if k == |s| {
      assert x == "" ==> s + x == s;
    } else if s[k] != '\n' {
      LineKeeps(s, x, k + 1);
    }
  }

  lemma {:induction false} BlockKeeps(s: string, x: string, k: nat)
    requires k <= |s| && BlockClosed(s, k)
    ensures BlockEnd(s + x, k) == BlockEnd(s, k) && BlockClosed(s + x, k)
    decreases |s| - k
  {
    assert EndsBlock(s, k) == EndsBlock(s + x, k) || k + 1 == |s|;
    if !EndsBlock(s, k) {
      BlockKeeps(s, x, k + 1);
    }
  }

  lemma {:induction false} BlockOpen(s: string, k: nat)
    requires k <= |s|
    ensures BlockEnd(s, k) < |s| ==> BlockClosed(s, k)
    decreases |s| - k
  {
    if k < |s| && !EndsBlock(s, k) {
      BlockOpen(s, k + 1);
    }
  }

  /** The first token of `a` stays the first token of `a + x` if it ends inside `a`, or `x` leaves it. */
  lemma FirstOfConcat(a: string, x: string)
    requires a != "" && (|First(a).text| < |a| || Settles(First(a), x))
    ensures First(a + x) == First(a)
  {
    var t := First(a);
    assert x == "" ==> a + x == a;
    match t.kind
    case Quoted =>
      QuotedOpen(a, 1, a[0]);
      if x != "" {
        assert |t.text| == |a| ==> t.text == a;
        QuotedKeeps(a, x, 1, a[0]);
      }
    case LineComment => LineKeeps(a, x, 1);
    case BlockComment =>
      BlockOpen(a, 2);
      if x != "" {
        assert |t.text| == |a| ==> t.text == a;
        BlockKeeps(a, x, 2);
      }
    case Plain =>
  }

  function Last(s: string): (t: Token)
    requires s != ""
    ensures t.text != ""
    decreases |s|
  {
    var t := First(s);
    if |t.text| == |s| then t else Last(s[|t.text|..])
  }

  /** If the last token of `a` is settled by `x`, the tokens of `a + x` are those of `a`, then of `x`. */
  lemma {:induction false} Append(a: string, x: string)
    requires a != "" ==> Settles(Last(a), x)
    ensures Tokenize(a + x) == Tokenize(a) + Tokenize(x)
    ensures Strip(a + x) == Strip(a) + Strip(x)
    decreases |a|
  {
    if a == "" {
      assert a + x == x;
    } else {
      var t := First(a);
      var rest := a[|t.text|..];
      FirstOfConcat(a, x);
      assert (a + x)[|t.text|..] == rest + x;
      Append(rest, x);
      StripStep(a);
      StripStep(a + x);
      Assoc([t], Tokenize(rest), Tokenize(x));
      Assoc(if IsKept(t) then t.text else "", Strip(rest), Strip(x));
    }
  }

  // ----- Main results -----

  /** A kept token is read back as itself in front of what is kept after it. */
  lemma KeptFits(s: string)
    requires s != "" && IsKept(First(s))
    ensures var t := First(s);
            First(t.text + Strip(s[|t.text|..])) == t
  {
    var t := First(s);
    var rest := s[|t.text|..];
    var x := Strip(rest);
    if t.kind == Quoted {
      QuotedOpen(s, 1, s[0]);
      if rest == "" {
        assert t.text + x == s;
      } else {
        var cut := s[..QuotedEnd(s, 1, s[0])];
        QuotedCut(s, 1, s[0]);
        QuotedKeeps(cut, x, 1, s[0]);
      }
    } else if rest != "" {
      StripStep(rest);
    }
  }

  lemma {:induction false} QuotedCut(s: string, k: nat, quote: char)
    requires k <= |s| && QuotedClosed(s, k, quote)
    ensures var e := QuotedEnd(s, k, quote);
            QuotedClosed(s[..e], k, quote) && QuotedEnd(s[..e], k, quote) == e
    decreases |s| - k
  {
    if s[k] == '\\' && k + 1 < |s| {
      QuotedCut(s, k + 2, quote);
    } else if s[k] != quote {
      QuotedCut(s, k + 1, quote);
    }
  }

  /** Scanning the output finds exactly the kept tokens: every literal verbatim, no comments. */
  lemma {:induction false} OutputTokens(s: string)
    ensures Tokenize(Strip(s)) == Kept(Tokenize(s))
    decreases |s|
  {
    if s != "" {
      var t := First(s);
      var rest := s[|t.text|..];
      OutputTokens(rest);
      StripStep(s);
      if IsKept(t) {
        KeptFits(s);
        assert (t.text + Strip(rest))[|t.text|..] == Strip(rest);
      }
    }
  }

  lemma {:induction false} KeptAreKept(tokens: seq<Token>)
    ensures forall t <- Kept(tokens) :: IsKept(t)
    ensures Kept(Kept(tokens)) == Kept(tokens)
  {
    if tokens != [] {
      KeptAreKept(tokens[1..]);
      if IsKept(tokens[0]) {
        assert Kept(tokens)[1..] == Kept(tokens[1..]);
      }
    }
  }

  /** No comment starts outside a literal of the output, and stripping twice is stripping once. */
  lemma StripIsIdempotent(s: string)
    ensures forall t <- Tokenize(Strip(s)) :: t.kind == Quoted || t.kind == Plain
    ensures Strip(Strip(s)) == Strip(s)
  {
    OutputTokens(s);
    KeptAreKept(Tokenize(s));
  }

  /** The text between the delimiters of a block comment. */
  predicate CommentBody(body: string) {
    forall k | 0 <= k < |body| :: !EndsBlock(body, k)
  }

  function Comment(body: string): string {
    "/*" + body + "*/"
  }

  lemma {:induction false} CommentEnds(body: string, b: string, k: nat)
    requires CommentBody(body) && 2 <= k <= |body| + 2
    ensures BlockEnd(Comment(body) + b, k) == |Comment(body)|
    decreases |body| + 2 - k
  {
    var s := Comment(body) + b;
    if k < |body| + 2 {
      assert s[k] == body[k - 2];
      assert k < |body| + 1 ==> s[k + 1] == body[k - 1];
      assert !EndsBlock(body, k - 2);
      CommentEnds(body, b, k + 1);
    }
  }

  lemma CommentVanishes(body: string, b: string)
    requires CommentBody(body)
    ensures Strip(Comment(body) + b) == Strip(b)
  {
    CommentEnds(body, b, 2);
    var s := Comment(body) + b;
    assert s[|Comment(body)|..] == b;
    StripStep(s);
  }

  /** `a` ends neither in a slash nor inside a literal, a line comment or an open block comment. */
  predicate Open(a: string) {
    a == "" || match Last(a).kind
               case Quoted => QuotedClosed(Last(a).text, 1, Last(a).text[0])
               case LineComment => false
               case BlockComment => |Last(a).text| >= 2 && BlockClosed(Last(a).text, 2)
               case Plain => Last(a).text != "/"
  }

  /** Inserting a block comment after such a token changes nothing. */
  lemma InsertComment(a: string, body: string, b: string)
    requires CommentBody(body) && Open(a)
    ensures Strip(a + Comment(body) + b) == Strip(a + b)
  {
    assert a + Comment(body) + b == a + (Comment(body) + b);
    Append(a, Comment(body) + b);
    Append(a, b);
    CommentVanishes(body, b);
  }

  /** After a line comment too, as long as the inserted comment stays on the line. */
  lemma {:induction false} InsertAfterLineComment(a: string, body: string, b: string)
    requires CommentBody(body) && '\n' !in body
    requires a != "" && Last(a).kind == LineComment && (b == "" || b[0] == '\n')
    ensures Strip(a + Comment(body) + b) == Strip(a + b)
  {
    LineAbsorbs(a, Comment(body));
    Append(a + Comment(body), b);
    Append(a, b);
  }

  /** After a line comment, an inserted comment is harmless whatever follows exactly if it stays on the line. */
  lemma {:induction false} AfterLineCommentIff(a: string, body: string)
    requires CommentBody(body) && a != "" && Last(a).kind == LineComment
    ensures (forall b | b == "" || b[0] == '\n' :: Strip(a + Comment(body) + b) == Strip(a + b))
       <==> '\n' !in body
  {
    if '\n' !in body {
      forall b | b == "" || b[0] == '\n' ensures Strip(a + Comment(body) + b) == Strip(a + b) {
        InsertAfterLineComment(a, body, b);
      }
    } else {
      SecondLineLeaks(a, body, 0);
      assert a + Comment(body) + "" == a + Comment(body) && a + "" == a;
    }
  }

  lemma Cut(a: string, body: string, k: nat)
    requires k <= |body|
    ensures a + Comment(body) == a + ("/*" + body[..k]) + (body[k..] + "*/")
  {
    assert body == body[..k] + body[k..];
  }

  lemma {:induction false} BreakLeaks(a: string, line: string, leaked: string)
    requires a != "" && Last(a).kind == LineComment && '\n' !in line && leaked != "" && leaked[0] == '\n'
    ensures Strip(a + line + leaked) != Strip(a)
  {
    LineAbsorbs(a, line);
    Append(a + line, leaked);
    StripStep(leaked);
  }

  /** The rest of the inserted comment, from its first line break on, is taken for text. */
  lemma {:induction false} SecondLineLeaks(a: string, body: string, k: nat)
    requires k <= |body| && '\n' in body[k..] && '\n' !in body[..k]
    requires a != "" && Last(a).kind == LineComment
    ensures Strip(a + Comment(body)) != Strip(a)
    decreases |body| - k
  {
    if body[k] == '\n' {
      Cut(a, body, k);
      BreakLeaks(a, "/*" + body[..k], body[k..] + "*/");
    } else {
      SecondLineLeaks(a, body, k + 1);
    }
  }

  /** A line comment swallows what follows it on its line. */
  lemma {:induction false} LineAbsorbs(a: string, k: string)
    requires a != "" && Last(a).kind == LineComment && '\n' !in k
    ensures Last(a + k).kind == LineComment && Strip(a + k) == Strip(a)
    decreases |a|
  {
    var n := |First(a).text|;
    if n == |a| {
      LastLineAbsorbs(a, k);
    } else {
      FirstOfConcat(a, k);
      Dropped(a, k, n);
      LineAbsorbs(a[n..], k);
      StripStep(a);
      StripStep(a + k);
    }
  }

  lemma {:induction false} LastLineAbsorbs(a: string, k: string)
    requires a != "" && First(a).kind == LineComment && |First(a).text| == |a| && '\n' !in k
    ensures Last(a + k).kind == LineComment && Strip(a + k) == Strip(a)
  {
    LineGrows(a, k, 1);
    StripStep(a);
    StripStep(a + k);
    assert a[|a|..] == "" && (a + k)[|a + k|..] == "";
  }

  lemma Dropped(a: string, k: string, n: nat)
    requires n <= |a|
    ensures (a + k)[n..] == a[n..] + k
  {
  }

  lemma {:induction false} LineGrows(s: string, x: string, k: nat)
    requires k <= |s| && LineEnd(s, k) == |s| && '\n' !in x
    ensures LineEnd(s + x, k) == |s + x|
    decreases |s| - k
  {
    if k < |s| {
      LineGrows(s, x, k + 1);
    } else {
      LineFree(s + x, k);
    }
  }

  lemma {:induction false} LineFree(s: string, k: nat)
    requires k <= |s| && forall j | k <= j < |s| :: s[j] != '\n'
    ensures LineEnd(s, k) == |s|
    decreases |s| - k
  {
    if k < |s| {
      LineFree(s, k + 1);
    }
  }

  /** Right after a slash the insertion always shows: slash and comment start make a line comment. */
  lemma AfterSlashItShows(a: string, body: string, b: string)
    requires Open(a) && (b == "" || (b[0] != '/' && b[0] != '*'))
    ensures Strip(a + ("/" + (Comment(body) + b))) != Strip(a + ("/" + b))
  {
    SlashShows(a, Comment(body) + b, b);
  }

  lemma SlashShows(a: string, k: string, b: string)
    requires Open(a) && k != "" && k[0] == '/' && (b == "" || (b[0] != '/' && b[0] != '*'))
    ensures Strip(a + ("/" + k)) != Strip(a + ("/" + b))
  {
    Append(a, "/" + b);
    Append(a, "/" + k);
    SlashStays(b);
    SlashVanishes(k);
    SamePrefix(Strip(a), Strip("/" + k), Strip("/" + b));
  }

  lemma SamePrefix(p: string, x: string, y: string)
    requires x != y
    ensures p + x != p + y
  {
    assert (p + x)[|p|..] == x && (p + y)[|p|..] == y;
  }

  lemma SlashStays(b: string)
    requires b == "" || (b[0] != '/' && b[0] != '*')
    ensures Strip("/" + b) != "" && Strip("/" + b)[0] == '/'
  {
    StripStep("/" + b);
    assert First("/" + b) == Token(Plain, "/");
  }

  lemma SlashVanishes(x: string)
    requires x != "" && x[0] == '/'
    ensures Strip("/" + x) == "" || Strip("/" + x)[0] == '\n'
  {
    var line := "/" + x;
    StripStep(line);
    assert First(line).kind == LineComment;
    LineStops(line, 1);
    var rest := line[LineEnd(line, 1)..];
    if rest != "" {
      StripStep(rest);
    }
  }

  lemma {:induction false} LineStops(s: string, k: nat)
    requires k <= |s|
    ensures LineEnd(s, k) < |s| ==> s[LineEnd(s, k)] == '\n'
    decreases |s| - k
  {
    if k < |s| {
      LineStops(s, k + 1);
    }
  }

  // ----- Literals come through -----

  /** A text as it is written between quotes: quotes and backslashes are shielded. */
  function Escaped(text: string, quote: char): string {
    if text == "" then ""
    else (if text[0] == quote || text[0] == '\\' then ['\\', text[0]] else [text[0]]) + Escaped(text[1..], quote)
  }

  function Literal(text: string, quote: char): string {
    [quote] + Escaped(text, quote) + [quote]
  }

  /** From any position before a shielded text, the literal ends at the quote after it. */
  lemma {:induction false} EscapedEnds(before: string, text: string, quote: char, after: string)
    requires IsQuote(quote)
    ensures var s := before + Escaped(text, quote) + [quote] + after;
            var e := |before| + |Escaped(text, quote)| + 1;
            QuotedEnd(s, |before|, quote) == e && QuotedClosed(s, |before|, quote)
    decreases |text|
  {
    var s := before + Escaped(text, quote) + [quote] + after;
    if text != "" {
      var first := if text[0] == quote || text[0] == '\\' then ['\\', text[0]] else [text[0]];
      EscapedEnds(before + first, text[1..], quote, after);
      assert before + first + Escaped(text[1..], quote) + [quote] + after == s;
      assert s[|before|] == first[0];
      assert |first| == 2 ==> s[|before| + 1] == first[1];
    }
  }

  /** Any text, shielded and put in either kind of quotes, is one literal, whatever it looks like. */
  lemma {:induction false} LiteralIsOneToken(text: string, quote: char, b: string)
    requires quote == '"' || quote == '\''
    ensures First(Literal(text, quote) + b) == Token(Quoted, Literal(text, quote))
  {
    EscapedEnds([quote], text, quote, b);
    var s := Literal(text, quote) + b;
    assert s == [quote] + Escaped(text, quote) + [quote] + b;
    assert s[..|Literal(text, quote)|] == Literal(text, quote);
  }

  /** So at an open position it comes through verbatim, comment signs in it included. */
  lemma {:induction false} LiteralComesThrough(a: string, text: string, quote: char, b: string)
    requires Open(a) && (quote == '"' || quote == '\'')
    ensures Strip(a + Literal(text, quote) + b) == Strip(a) + Literal(text, quote) + Strip(b)
  {
    var literal := Literal(text, quote);
    LiteralIsKept(text, quote, b);
    Append(a, literal + b);
    Assoc(a, literal, b);
    Assoc(Strip(a), literal, Strip(b));
  }

  lemma {:induction false} LiteralIsKept(text: string, quote: char, b: string)
    requires quote == '"' || quote == '\''
    ensures Strip(Literal(text, quote) + b) == Literal(text, quote) + Strip(b)
  {
    LiteralIsOneToken(text, quote, b);
    StripStep(Literal(text, quote) + b);
    Dropped(Literal(text, quote), b, |Literal(text, quote)|);
    assert Literal(text, quote)[|Literal(text, quote)|..] + b == b;
  }
}
