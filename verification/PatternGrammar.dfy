/** Which patterns compile without error, and how often the scanner's inner loop runs. */
module PatternGrammar {
  import opened Wrappers
  import opened Pattern

  /** Every percent sign of a literal is followed by another one: inside the literal, or that of
      the directive the literal stands before. */
  predicate PercentsPaired(text: string, beforeDir: bool) {
    forall k :: 0 <= k < |text| ==> PairedAt(text, k, beforeDir)
  }

  predicate PairedAt(text: string, k: nat, beforeDir: bool)
    requires k < |text|
  {
    text[k] == '%' ==> if k + 1 < |text| then text[k + 1] == '%' else beforeDir
  }

  /** What may follow a directive without braces without being read as part of it. */
  predicate StartsFresh(ts: seq<Token>) {
    ts != [] && ts[0].Lit? && ts[0].text != [] ==> !NameChar(ts[0].text[0]) && ts[0].text[0] != '{'
  }

  /** The grammar of accepted patterns, on tokens: table names only, closed formats, maximal
      names, and maximal literals. */
  predicate Canonical(ts: seq<Token>) {
    ts == [] || (Canonical(ts[1..]) && CanonicalHead(ts[0], ts[1..]))
  }

  predicate CanonicalHead(t: Token, rest: seq<Token>) {
    match t
    case Lit(text) => text != [] && (rest != [] ==> rest[0].Dir?) && PercentsPaired(text, rest != [])
    case Dir(name, brace, fmt) =>
      && Table(name).Some?
      && (if brace then forall k :: 0 <= k < |fmt| ==> fmt[k] != '}' else fmt == "" && StartsFresh(rest))
    case Bad => false
  }

  // --------------------------------------------------------- parsing what was printed

  /** Literal text goes to the pending buffer. */
  lemma {:induction false} ScanLiteral(p: string, i: nat, j: nat, pending: string)
    requires i <= j <= |p|
    requires forall k :: i <= k < j ==> LiteralAt(p, k)
    ensures Scan(p, i, pending) == Scan(p, j, pending + p[i..j])
    decreases j - i
  {
    if i == j {
      assert pending + p[i..j] == pending;
    } else {
      ScanLiteral(p, i + 1, j, pending + [p[i]]);
      assert pending + [p[i]] + p[i + 1..j] == pending + p[i..j];
    }
  }

  lemma TextIsLiteral(p: string, i: nat, j: nat)
    requires i <= j <= |p| && PercentsPaired(p[i..j], j < |p| && p[j] == '%')
    ensures forall k :: i <= k < j ==> LiteralAt(p, k)
  {
    forall k | i <= k < j ensures LiteralAt(p, k) {
      assert PairedAt(p[i..j], k - i, j < |p| && p[j] == '%');
    }
  }

  lemma FlushInFront(p: string, i: nat, pending: string)
    requires i <= |p| && (i < |p| ==> !LiteralAt(p, i) && !Munch(p, i).token.Bad?)
    ensures Scan(p, i, pending) == Flush(pending) + Scan(p, i, [])
  {
  }

  /** What a directive's text looks like in place. */
  lemma DirectiveText(p: string, i: nat, d: Token, rest: string)
    requires i <= |p| && d.Dir? && Table(d.name).Some?
    requires p[i..] == TokenSource(d) + rest
    ensures i + 1 < |p| && p[i] == '%' && [p[i + 1]] == d.name
    ensures i + |TokenSource(d)| <= |p| && p[i + |TokenSource(d)|..] == rest
    ensures d.brace ==> |TokenSource(d)| == |d.fmt| + 4 && p[i + 2] == '{' && p[i + 3 + |d.fmt|] == '}'
                        && p[i + 3..i + 3 + |d.fmt|] == d.fmt
    ensures !d.brace ==> |TokenSource(d)| == 2
  {
    var t := TokenSource(d);
    assert |d.name| == 1;
    assert forall k :: 0 <= k < |t| ==> p[i..][k] == t[k];
    assert p[i + |t|..] == p[i..][|t|..] == rest;
    assert t[0] == '%' && t[1] == d.name[0];
    if d.brace {
      assert t == "%" + d.name + ("{" + d.fmt + "}");
      assert forall k :: 0 <= k < |d.fmt| ==> t[3 + k] == d.fmt[k];
    }
  }

  lemma NameOfPrinted(p: string, i: nat, d: Token, ts: seq<Token>)
    requires i <= |p| && d.Dir? && CanonicalHead(d, ts) && Canonical(ts)
    requires p[i..] == TokenSource(d) + Source(ts)
    ensures i + 1 < |p| && p[i] == '%' && p[i + 1] != '%' && NameEnd(p, i + 1) == i + 2
    ensures !d.brace && i + 2 < |p| ==> p[i + 2] != '{'
  {
  }

  lemma BareDirective(p: string, i: nat, e: nat)
    requires i < e <= |p| && NameEnd(p, i + 1) == e && (e < |p| ==> p[e] != '{')
    ensures Munch(p, i).token == Dir(p[i + 1..e], false, "") && Munch(p, i).next == e
  {
  }

  lemma BracedDirective(p: string, i: nat, e: nat, fmt: string)
    requires i < e && e + 1 + |fmt| < |p| && NameEnd(p, i + 1) == e && p[e] == '{'
    requires p[e + 1..e + 1 + |fmt|] == fmt && '}' !in fmt && p[e + 1 + |fmt|] == '}'
    ensures Munch(p, i).token == Dir(p[i + 1..e], true, fmt) && Munch(p, i).next == e + |fmt| + 2
  {
    assert forall k :: e + 1 <= k < e + 1 + |fmt| ==> p[k] == fmt[k - e - 1];
    assert FmtEnd(p, e + 1) == e + 1 + |fmt|;
  }

  lemma MunchOfBraced(p: string, i: nat, d: Token, rest: string)
    requires i <= |p| && d.Dir? && Table(d.name).Some? && d.brace && '}' !in d.fmt
    requires p[i..] == TokenSource(d) + rest && i + 1 < |p| && NameEnd(p, i + 1) == i + 2
    ensures i < |p| && Munch(p, i).token == d && Munch(p, i).next == i + |TokenSource(d)|
  {
    DirectiveText(p, i, d, rest);
    assert p[i + 1..i + 2] == d.name;
    BracedDirective(p, i, i + 2, d.fmt);
  }

  lemma MunchOfPrinted(p: string, i: nat, d: Token, ts: seq<Token>)
    requires i <= |p| && d.Dir? && CanonicalHead(d, ts) && Canonical(ts)
    requires p[i..] == TokenSource(d) + Source(ts)
    ensures i < |p| && !LiteralAt(p, i)
    ensures Munch(p, i).token == d && Munch(p, i).next == i + |TokenSource(d)|
  {
    NameOfPrinted(p, i, d, ts);
    if d.brace {
      MunchOfBraced(p, i, d, Source(ts));
    } else {
      DirectiveText(p, i, d, Source(ts));
      assert p[i + 1..i + 2] == d.name;
      BareDirective(p, i, i + 2);
    }
  }

  lemma {:induction false} ScanOfSource(p: string, i: nat, ts: seq<Token>)
    requires i <= |p| && p[i..] == Source(ts) && Canonical(ts)
    ensures Scan(p, i, []) == ts
    decreases |ts|, 0
  {
    if ts != [] {
      assert ts == [ts[0]] + ts[1..];
      if ts[0].Dir? {
        MunchOfPrinted(p, i, ts[0], ts[1..]);
        DirectiveText(p, i, ts[0], Source(ts[1..]));
        ScanOfSource(p, Munch(p, i).next, ts[1..]);
        FlushInFront(p, i, []);
      } else {
        LiteralFirst(p, i, ts[0], ts[1..]);
      }
    }
  }

  lemma TextInPlace(p: string, i: nat, text: string, rest: string)
    requires i <= |p| && p[i..] == text + rest
    ensures i + |text| <= |p| && p[i..i + |text|] == text && p[i + |text|..] == rest
  {
    assert p[i..i + |text|] == p[i..][..|text|];
    assert p[i + |text|..] == p[i..][|text|..];
  }

  /** The text at `j` goes on with a directive, or ends. */
  predicate DirectiveOrEnd(p: string, j: nat, rest: seq<Token>)
    requires j <= |p|
  {
    if rest == [] then j == |p| else j < |p| && p[j] == '%' && !LiteralAt(p, j) && !Munch(p, j).token.Bad?
  }

  lemma NextInPlace(p: string, j: nat, rest: seq<Token>)
    requires j <= |p| && p[j..] == Source(rest) && Canonical(rest) && (rest != [] ==> rest[0].Dir?)
    ensures DirectiveOrEnd(p, j, rest)
  {
    if rest != [] {
      MunchOfPrinted(p, j, rest[0], rest[1..]);
    }
  }

  lemma LiteralInFront(p: string, i: nat, j: nat, lit: Token, rest: seq<Token>)
    requires i <= j <= |p| && lit.Lit? && CanonicalHead(lit, rest) && p[i..j] == lit.text
    requires Scan(p, j, []) == rest && DirectiveOrEnd(p, j, rest)
    ensures Scan(p, i, []) == [lit] + rest
  {
    TextIsLiteral(p, i, j);
    ScanLiteral(p, i, j, []);
    assert [] + p[i..j] == lit.text;
    FlushInFront(p, j, lit.text);
  }

  lemma {:induction false} LiteralFirst(p: string, i: nat, lit: Token, rest: seq<Token>)
    requires i <= |p| && lit.Lit? && p[i..] == lit.text + Source(rest)
    requires Canonical(rest) && CanonicalHead(lit, rest)
    ensures Scan(p, i, []) == [lit] + rest
    decreases |rest|, 1
  {
    var j := i + |lit.text|;
    TextInPlace(p, i, lit.text, Source(rest));
    ScanOfSource(p, j, rest);
    NextInPlace(p, j, rest);
    LiteralInFront(p, i, j, lit, rest);
  }

  // --------------------------------------------------------- what acceptance implies

  /** The first token of a clean scan shows the first character scanned. */
  lemma {:induction false} FirstToken(p: string, i: nat, pending: string)
    requires i <= |p| && AllGood(Scan(p, i, pending))
    ensures var ts := Scan(p, i, pending);
            && (ts == [] <==> pending == [] && i == |p|)
            && (pending != [] ==> ts[0].Lit? && ts[0].text != [] && ts[0].text[0] == pending[0])
            && (ts != [] && ts[0].Lit? && pending == [] ==> ts[0].text != [] && ts[0].text[0] == p[i])
    decreases |p| - i
  {
    if i < |p| && LiteralAt(p, i) {
      FirstToken(p, i + 1, pending + [p[i]]);
    }
  }

  lemma GoodTail(a: seq<Token>, b: seq<Token>)
    requires AllGood(a + b)
    ensures AllGood(b) && (a != [] ==> GoodToken(a[0]))
  {
    assert forall k :: 0 <= k < |b| ==> b[k] == (a + b)[|a| + k];
    assert a != [] ==> a[0] == (a + b)[0];
  }

  lemma CanonicalCons(t: Token, ts: seq<Token>)
    requires Canonical(ts) && CanonicalHead(t, ts)
    ensures Canonical([t] + ts)
  {
    assert ([t] + ts)[1..] == ts;
  }

  /** A directive the scanner read and the table knows is in canonical form. */
  lemma MunchIsCanonical(p: string, i: nat)
    requires i < |p| && p[i] == '%' && GoodToken(Munch(p, i).token)
    requires AllGood(Scan(p, Munch(p, i).next, []))
    ensures CanonicalHead(Munch(p, i).token, Scan(p, Munch(p, i).next, []))
  {
    FirstToken(p, Munch(p, i).next, []);
  }

  lemma PairedExtends(p: string, i: nat, pending: string)
    requires i < |p| && LiteralAt(p, i) && PercentsPaired(pending, p[i] == '%')
    ensures PercentsPaired(pending + [p[i]], i + 1 < |p| && p[i + 1] == '%')
  {
    var text := pending + [p[i]];
    var paired := i + 1 < |p| && p[i + 1] == '%';
    forall k | 0 <= k < |text| ensures PairedAt(text, k, paired) {
      assert k < |pending| ==> PairedAt(pending, k, p[i] == '%');
    }
  }

  lemma {:induction false} ScanIsCanonical(p: string, i: nat, pending: string)
    requires i <= |p| && AllGood(Scan(p, i, pending))
    requires PercentsPaired(pending, i < |p| && p[i] == '%')
    ensures Canonical(Scan(p, i, pending))
    decreases |p| - i
  {
    if i == |p| {
      if pending != [] {
        CanonicalCons(Lit(pending), []);
      }
    } else if LiteralAt(p, i) {
      PairedExtends(p, i, pending);
      ScanIsCanonical(p, i + 1, pending + [p[i]]);
    } else {
      var m := Munch(p, i);
      var after := Scan(p, m.next, []);
      if m.token.Bad? {
        GoodTail([Bad], Scan(p, i + 1, pending));
      } else {
        GoodTail(Flush(pending), [m.token] + after);
        GoodTail([m.token], after);
        ScanIsCanonical(p, m.next, []);
        MunchIsCanonical(p, i);
        CanonicalCons(m.token, after);
        if pending == [] {
          assert Flush(pending) + ([m.token] + after) == [m.token] + after;
        } else {
          CanonicalCons(Lit(pending), [m.token] + after);
        }
      }
    }
  }

  lemma {:induction false} GoodHasNoBad(ts: seq<Token>)
    requires AllGood(ts)
    ensures CountBad(ts) == 0
  {
    if ts != [] {
      GoodTail([ts[0]], ts[1..]);
      assert [ts[0]] + ts[1..] == ts;
      GoodHasNoBad(ts[1..]);
    }
  }

  lemma {:induction false} CanonicalIsGood(ts: seq<Token>)
    requires Canonical(ts)
    ensures AllGood(ts)
  {
    if ts != [] {
      CanonicalIsGood(ts[1..]);
      forall k | 0 <= k < |ts| ensures GoodToken(ts[k]) {
        if k > 0 {
          assert ts[k] == ts[1..][k - 1];
        }
      }
    }
  }

  // --------------------------------------------------------------------- results

  /** Compiling what was printed yields exactly the token list that was printed. */
  lemma ParseOfPrint(ts: seq<Token>)
    requires Canonical(ts)
    ensures Tokens(Source(ts)) == ts && Accepts(Source(ts))
  {
    assert Source(ts)[0..] == Source(ts);
    ScanOfSource(Source(ts), 0, ts);
    CanonicalIsGood(ts);
  }

  /** Printing the tokens of an accepted pattern gives the pattern back, and they are canonical. */
  lemma PrintOfParse(p: string)
    requires Accepts(p)
    ensures Canonical(Tokens(p)) && Source(Tokens(p)) == p
  {
    ScanIsCanonical(p, 0, []);
    var cuts := Lossless(p);
    GoodHasNoBad(Tokens(p));
  }

  /** Acceptance is exactly membership in the grammar, and the reading is unique. */
  lemma AcceptsIffGrammar(p: string)
    ensures Accepts(p) <==> exists ts :: Canonical(ts) && Source(ts) == p
    ensures forall ts :: Canonical(ts) && Source(ts) == p ==> ts == Tokens(p)
  {
    forall ts | Canonical(ts) && Source(ts) == p ensures Accepts(p) && ts == Tokens(p) {
      ParseOfPrint(ts);
    }
    if Accepts(p) {
      PrintOfParse(p);
    }
  }

  // ------------------------------------------------------- what single pieces mean

  /** The item that stands for a token, name by name. */
  predicate Means(item: FormatItem, t: Token) {
    match t
    case Lit(text) => item == Text(text)
    case Bad => item == Text("<<pattern_error>>")
    case Dir(name, _, fmt) =>
      match item
      case Text(text) => name !in ["m", "p", "r", "c", "t", "n", "d", "f", "l", "T", "F", "N"]
                         && text == "<<error_format %" + name + ">>"
      case Field(kind, f) =>
        && (match kind
            case Message => name == "m"
            case Level => name == "p"
            case Elapse => name == "r"
            case LoggerName => name == "c"
            case ThreadId => name == "t" || name == "N"
            case NewLine => name == "n"
            case DateTime => name == "d"
            case Filename => name == "f"
            case Line => name == "l"
            case Tab => name == "T"
            case FiberId => name == "F")
        && f == if name == "d" && fmt == "" then "%Y-%m-%d  %H:%M:%S" else fmt
  }

  lemma BuildMeans(t: Token)
    ensures Means(Build(t), t)
  {
  }

  /** The twelve names and what they stand for. */
  lemma KindOfName(name: string, brace: bool, fmt: string)
    ensures name == "m" ==> Build(Dir(name, brace, fmt)) == Field(Message, fmt)
    ensures name == "p" ==> Build(Dir(name, brace, fmt)) == Field(Level, fmt)
    ensures name == "r" ==> Build(Dir(name, brace, fmt)) == Field(Elapse, fmt)
    ensures name == "c" ==> Build(Dir(name, brace, fmt)) == Field(LoggerName, fmt)
    ensures name == "t" ==> Build(Dir(name, brace, fmt)) == Field(ThreadId, fmt)
    ensures name == "n" ==> Build(Dir(name, brace, fmt)) == Field(NewLine, fmt)
    ensures name == "d" ==>
              Build(Dir(name, brace, fmt)) == Field(DateTime, if fmt == "" then "%Y-%m-%d  %H:%M:%S" else fmt)
    ensures name == "f" ==> Build(Dir(name, brace, fmt)) == Field(Filename, fmt)
    ensures name == "l" ==> Build(Dir(name, brace, fmt)) == Field(Line, fmt)
    ensures name == "T" ==> Build(Dir(name, brace, fmt)) == Field(Tab, fmt)
    ensures name == "F" ==> Build(Dir(name, brace, fmt)) == Field(FiberId, fmt)
    ensures name == "N" ==> Build(Dir(name, brace, fmt)) == Field(ThreadId, fmt)
  {
  }

  predicate Letters(w: string) {
    forall k :: 0 <= k < |w| ==> 'a' <= w[k] <= 'z' || 'A' <= w[k] <= 'Z'
  }

  /** How far the name of a directive reaches: over letters and closing braces. */
  lemma NameOver(p: string, i: nat, w: string, rest: string)
    requires i <= |p| && p[i..] == w + rest
    requires forall k :: 0 <= k < |w| ==> NameChar(w[k])
    ensures i + |w| <= NameEnd(p, i)
    ensures rest == "" || !NameChar(rest[0]) ==> NameEnd(p, i) == i + |w|
  {
    assert |p| == i + |w| + |rest|;
    assert forall k :: i <= k < i + |w| ==> p[k] == p[i..][k - i] == w[k - i];
    assert rest != "" ==> p[i + |w|] == p[i..][|w|] == rest[0];
  }

  /** A directive's name is all the letters there are. */
  lemma NameIsLetters(w: string, rest: string)
    requires Letters(w) && (w == "" ==> rest == "" || rest[0] != '%')
    requires rest != "" ==> !Letters(rest[..1]) && rest[0] != '{' && rest[0] != '}'
    ensures var ts := Tokens("%" + w + rest); ts != [] && ts[0] == Dir(w, false, "")
  {
    var p := "%" + w + rest;
    assert p[1..] == w + rest;
    NameOver(p, 1, w, rest);
    assert p[1..1 + |w|] == w;
    assert |w| + 1 < |p| ==> p[|w| + 1] == rest[0];
    assert w != "" ==> p[1] == w[0];
    BareDirective(p, 0, 1 + |w|);
  }

  /** A closing brace counts as a letter, and no name in the table has one. */
  lemma BraceInName(w: string, rest: string)
    requires Letters(w)
    ensures !Accepts("%" + w + "}" + rest)
  {
    var p := "%" + w + "}" + rest;
    assert p[1..] == (w + "}") + rest;
    NameOver(p, 1, w + "}", rest);
    assert p[|w| + 1] == '}';
    assert w != "" ==> p[1] == w[0];
    var m := Munch(p, 0);
    assert Tokens(p)[0] == m.token;
    if m.token.Dir? {
      assert m.token.name[|w|] == '}';
    }
    assert !GoodToken(Tokens(p)[0]);
  }

  /** An unclosed directive is reported before the literal text it stands in, and does not split it. */
  lemma UnclosedKeepsLiteral(a: string, w: string, b: string)
    requires '%' !in a && Letters(w) && '%' !in b && '}' !in b
    ensures Tokens(a + "%" + (w + "{" + b)) == [Bad, Lit(a + (w + "{" + b))]
  {
    var rest := w + "{" + b;
    var p := a + "%" + rest;
    var i := |a|;
    assert p[i] == '%' && p[i + 1..] == rest && p[i + 1..|p|] == rest;
    assert '%' !in rest;
    PlainText(p, 0, i, a);
    UnclosedAt(p, i, w, b);
    assert Scan(p, i, a) == [Bad] + Scan(p, i + 1, a);
    PlainText(p, i + 1, |p|, rest);
    ScanLiteral(p, 0, i, []);
    assert [] + p[0..i] == a;
    ScanLiteral(p, i + 1, |p|, a);
  }

  lemma PlainText(p: string, i: nat, j: nat, text: string)
    requires i <= j <= |p| && p[i..j] == text && '%' !in text
    ensures forall k :: i <= k < j ==> LiteralAt(p, k)
  {
    forall k | i <= k < j ensures LiteralAt(p, k) {
      assert p[k] == text[k - i] && text[k - i] in text;
    }
  }

  lemma UnclosedAt(p: string, i: nat, w: string, b: string)
    requires i < |p| && p[i] == '%' && p[i + 1..] == w + "{" + b && Letters(w) && '}' !in b
    ensures !LiteralAt(p, i) && Munch(p, i).token.Bad?
  {
    var j := i + 1 + |w|;
    assert w + "{" + b == w + ("{" + b);
    NameOver(p, i + 1, w, "{" + b);
    assert p[j] == p[i + 1..][|w|] == '{';
    assert p[i + 1] == p[i + 1..][0];
    forall k | j < k < |p| ensures p[k] != '}' {
      assert p[k] == p[i + 1..][k - i - 1] == b[k - j - 1];
    }
    assert FmtEnd(p, j + 1) == |p|;
  }

  // --------------------------------------------------------------- error placeholders

  /** The texts the compiler puts in place of what it cannot read. */
  predicate LooksLikeError(text: string) {
    || text == ERROR_TEXT
    || (|text| >= 18 && text[..16] == "<<error_format %" && text[|text| - 2..] == ">>")
  }

  predicate Placeholder(item: FormatItem) {
    item.Text? && LooksLikeError(item.text)
  }

  /** Some item compiled from the tokens is a placeholder. */
  predicate ShowsError(ts: seq<Token>) {
    exists k :: 0 <= k < |ts| && Placeholder(Build(ts[k]))
  }

  lemma BadTokenShows(t: Token)
    requires !GoodToken(t)
    ensures Placeholder(Build(t))
  {
    if t.Dir? {
      var text := "<<error_format %" + t.name + ">>";
      assert text[..16] == "<<error_format %" && text[|text| - 2..] == ">>";
    }
  }

  /** From a percent sign of a literal on there are only percent signs. */
  lemma {:induction false} PercentsRun(text: string, beforeDir: bool, i: nat, k: nat)
    requires i <= k < |text| && text[i] == '%' && PercentsPaired(text, beforeDir)
    ensures text[k] == '%'
  {
    if i < k {
      PercentsRun(text, beforeDir, i, k - 1);
      assert PairedAt(text, k - 1, beforeDir);
    }
  }

  /** Hence no literal of an accepted pattern looks like the placeholder of an unknown name. */
  lemma LiteralThatShows(text: string, beforeDir: bool)
    requires PercentsPaired(text, beforeDir) && LooksLikeError(text)
    ensures text == ERROR_TEXT
  {
    if text != ERROR_TEXT {
      assert text[..16][15] == '%' && text[|text| - 2..][1] == '>';
      PercentsRun(text, beforeDir, 15, |text| - 1);
    }
  }

  lemma {:induction false} CanonicalAt(ts: seq<Token>, k: nat)
    requires Canonical(ts) && k < |ts|
    ensures CanonicalHead(ts[k], ts[k + 1..])
  {
    if k > 0 {
      CanonicalAt(ts[1..], k - 1);
      assert ts[1..][k..] == ts[k + 1..];
    }
  }

  /** A canonical list shows an error exactly when one of its literals is the error text. */
  lemma ShowsOnlyErrorText(ts: seq<Token>)
    requires Canonical(ts)
    ensures ShowsError(ts) <==> Lit(ERROR_TEXT) in ts
  {
    forall k | 0 <= k < |ts| ensures Placeholder(Build(ts[k])) <==> ts[k] == Lit(ERROR_TEXT) {
      CanonicalAt(ts, k);
      if ts[k].Lit? && LooksLikeError(ts[k].text) {
        LiteralThatShows(ts[k].text, ts[k + 1..] != []);
      }
    }
  }

  /** Exactly when placeholders are built: for a pattern outside the grammar, and for one inside it
      that has the error text for a literal of its own. */
  lemma PlaceholderIffError(p: string)
    ensures ShowsError(Tokens(p))
            <==> !Accepts(p) || exists ts :: Canonical(ts) && Source(ts) == p && Lit(ERROR_TEXT) in ts
  {
    if Accepts(p) {
      PrintOfParse(p);
      ShowsOnlyErrorText(Tokens(p));
      AcceptsIffGrammar(p);
    } else {
      var k :| 0 <= k < |Tokens(p)| && !GoodToken(Tokens(p)[k]);
      BadTokenShows(Tokens(p)[k]);
    }
  }

  predicate OccursAt(p: string, i: nat, text: string) {
    i + |text| <= |p| && p[i..i + |text|] == text
  }

  predicate Contains(p: string, text: string) {
    exists i: nat :: i <= |p| && OccursAt(p, i, text)
  }

  lemma ContainsInTail(a: string, b: string, text: string)
    requires Contains(b, text)
    ensures Contains(a + b, text)
  {
    var i: nat :| i <= |b| && OccursAt(b, i, text);
    var j := |a| + i;
    assert (a + b)[j..j + |text|] == b[i..i + |text|];
    assert OccursAt(a + b, j, text);
  }

  lemma {:induction false} SourceContains(ts: seq<Token>, t: Token)
    requires t in ts
    ensures Contains(Source(ts), TokenSource(t))
  {
    if ts[0] == t {
      assert OccursAt(TokenSource(t) + Source(ts[1..]), 0, TokenSource(t));
    } else {
      SourceContains(ts[1..], t);
      ContainsInTail(TokenSource(ts[0]), Source(ts[1..]), TokenSource(t));
    }
  }

  /** So for a pattern that does not contain the error text, the error flag stays false exactly when
      no placeholder is built. */
  lemma PlaceholderMeansError(p: string)
    requires !Contains(p, ERROR_TEXT)
    ensures Accepts(p) <==> !ShowsError(Tokens(p))
  {
    PlaceholderIffError(p);
    forall ts | Canonical(ts) && Source(ts) == p ensures Lit(ERROR_TEXT) !in ts {
      if Lit(ERROR_TEXT) in ts {
        SourceContains(ts, Lit(ERROR_TEXT));
      }
    }
  }

  /** In general they differ: this pattern is accepted and prints what an unclosed brace prints. */
  lemma LiteralMayLookLikeError()
    ensures Accepts(ERROR_TEXT) && ShowsError(Tokens(ERROR_TEXT))
    ensures Tokens(ERROR_TEXT) == [Lit(ERROR_TEXT)] && Build(Lit(ERROR_TEXT)) == Build(Bad)
  {
    var ts := [Lit(ERROR_TEXT)];
    assert ts[1..] == [] && Canonical([]);
    assert Canonical(ts);
    assert Source(ts) == ERROR_TEXT + "" == ERROR_TEXT;
    ParseOfPrint(ts);
    assert Placeholder(Build(ts[0]));
  }

  // ------------------------------------------------------------------- step bounds

  /** m * m / 4, by its differences. */
  function Quarter(m: nat): nat {
    if m < 2 then 0 else m - 1 + Quarter(m - 2)
  }

  lemma {:induction false} QuarterClosed(m: nat)
    ensures Quarter(m) == m * m / 4
  {
    if m >= 2 {
      QuarterClosed(m - 2);
      assert m * m == (m - 2) * (m - 2) + 4 * (m - 1);
    }
  }

  lemma {:induction false} QuarterGrows(m: nat)
    ensures Quarter(m) <= Quarter(m + 1)
    ensures m > 0 ==> Quarter(m) + 1 <= Quarter(m + 1)
  {
    if m >= 2 {
      QuarterGrows(m - 2);
    }
  }

  /** Reading `d` characters of `m` in no more than `d` iterations leaves enough for the rest. */
  lemma {:induction false} QuarterDrop(m: nat, d: nat)
    requires 0 < d <= m
    ensures d < m ==> d + Quarter(m - d) <= Quarter(m)
    ensures d - 1 + Quarter(m - d) <= Quarter(m)
    decreases d
  {
    QuarterGrows(m - 1);
    if d > 1 {
      QuarterDrop(m - 1, d - 1);
    }
  }

  /** An unclosed directive is never followed by another percent sign, so the scan loses two
      characters for it. */
  lemma {:induction false} StepsBelowQuarter(p: string, i: nat)
    requires i <= |p|
    ensures Steps(p, i) <= Quarter(|p| - i)
    decreases |p| - i
  {
    if i < |p| {
      var m := Munch(p, i);
      if LiteralAt(p, i) {
        StepsBelowQuarter(p, i + 1);
        QuarterGrows(|p| - i - 1);
      } else if m.token.Bad? {
        assert NameEnd(p, i + 1) < |p|;
        assert LiteralAt(p, i + 1);
        StepsBelowQuarter(p, i + 2);
      } else {
        StepsBelowQuarter(p, m.next);
        QuarterDrop(|p| - i, m.next - i);
      }
    }
  }

  lemma {:induction false} StepsBelowLength(p: string, i: nat)
    requires i <= |p| && BadAt(p, i) == []
    ensures Steps(p, i) <= |p| - i
    decreases |p| - i
  {
    if i < |p| {
      BadAtStep(p, i);
      StepsBelowLength(p, NextAt(p, i));
    }
  }

  /** The inner loop runs at most |p| times when no brace is left open, and never more often than
      |p| * |p| / 4 times. */
  lemma StepBound(p: string)
    ensures Steps(p, 0) <= |p| * |p| / 4
    ensures CountBad(Tokens(p)) == 0 ==> Steps(p, 0) <= |p|
  {
    StepsBelowQuarter(p, 0);
    QuarterClosed(|p|);
    BadAtCount(p, 0, []);
    if CountBad(Tokens(p)) == 0 {
      StepsBelowLength(p, 0);
    }
  }

  /** Percent signs and opening braces in turn. */
  function Worst(n: nat): (p: string)
    ensures |p| == n
  {
    seq(n, k requires 0 <= k < n => if k % 2 == 0 && k + 1 < n then '%' else '{')
  }

  lemma {:induction false} WorstSteps(n: nat, i: nat)
    requires i <= n && i % 2 == 0
    ensures Steps(Worst(n), i) == Quarter(n - i)
    decreases n - i
  {
    var p := Worst(n);
    if i + 1 < n {
      assert p[i + 1] == '{' && NameEnd(p, i + 1) == i + 1;
      WorstSteps(n, i + 2);
    } else if i < n {
      assert Steps(p, i + 1) == 0;
    }
  }

  /** The bound is reached at every length. */
  lemma BoundIsReached(n: nat)
    ensures |Worst(n)| == n && Steps(Worst(n), 0) == n * n / 4
  {
    WorstSteps(n, 0);
    QuarterClosed(n);
  }
}
