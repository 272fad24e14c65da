/** The log pattern language: what LogFormatter::init reads, as functions on strings.

    `Scan` is the reference for the tokenizer loop, `Source` prints tokens back, and
    `Canonical` says which token lists are the reading of an accepted pattern.
 */
module Pattern {
  import opened Wrappers

  /** One entry of the first pass. `Bad` stands for the pattern_error entry; `brace` records
      whether a directive carried a `{fmt}` part, which the tuples of the code forget. */
  datatype Token = Lit(text: string) | Dir(name: string, brace: bool, fmt: string) | Bad

  /** The directive read at some position: its token, the position after it, and how often the
      inner loop runs for it. */
  datatype Munched = Munched(token: Token, next: nat, steps: nat)

  /** The classes of format items the table can build. */
  datatype Kind = Message | Level | Elapse | LoggerName | ThreadId | NewLine | DateTime | Filename
                | Line | Tab | FiberId

  datatype FormatItem = Text(text: string) | Field(kind: Kind, fmt: string)

  predicate IsAlpha(c: char) {
    'a' <= c <= 'z' || 'A' <= c <= 'Z'
  }

  /** Inside a directive name a closing brace counts as a letter. */
  predicate NameChar(c: char) {
    IsAlpha(c) || c == '}'
  }

  /** End of the longest run of name characters from `i`. */
  function NameEnd(p: string, i: nat): (e: nat)
    requires i <= |p|
    ensures i <= e <= |p|
    ensures forall k :: i <= k < e ==> NameChar(p[k])
    ensures e < |p| ==> !NameChar(p[e])
    decreases |p| - i
  {
    if i == |p| || !NameChar(p[i]) then i else NameEnd(p, i + 1)
  }

  /** Position of the first closing brace from `i` on, or |p| when there is none. */
  function FmtEnd(p: string, i: nat): (e: nat)
    requires i <= |p|
    ensures i <= e <= |p|
    ensures forall k :: i <= k < e ==> p[k] != '}'
    ensures e < |p| ==> p[e] == '}'
    decreases |p| - i
  {
    if i == |p| || p[i] == '}' then i else FmtEnd(p, i + 1)
  }

  /** A percent sign that is directly followed by another one is plain text. */
  predicate LiteralAt(p: string, i: nat)
    requires i < |p|
  {
    p[i] != '%' || (i + 1 < |p| && p[i + 1] == '%')
  }

  /** The directive whose percent sign is at `i`: a maximal name, then `{fmt}` if a brace follows. */
  function Munch(p: string, i: nat): (m: Munched)
    requires i < |p|
    ensures i < m.next <= |p|
    ensures m.token.Bad? ==> m.next == i + 1
    ensures !m.token.Lit?
  {
    var e := NameEnd(p, i + 1);
    if e < |p| && p[e] == '{' then
      var b := FmtEnd(p, e + 1);
      if b < |p| then Munched(Dir(p[i + 1..e], true, p[e + 1..b]), b + 1, b - i)
      else Munched(Bad, i + 1, |p| - 1 - i)
    else
      Munched(Dir(p[i + 1..e], false, ""), e, if e < |p| then e - i else e - 1 - i)
  }

  function Flush(pending: string): seq<Token> {
    if pending == [] then [] else [Lit(pending)]
  }

  /** The tokens from position `i` on when `pending` is literal text not yet flushed. An unclosed
      directive is reported without flushing and without skipping more than its percent sign. */
  function Scan(p: string, i: nat, pending: string): seq<Token>
    requires i <= |p|
    decreases |p| - i
  {
    if i == |p| then Flush(pending)
    else if LiteralAt(p, i) then Scan(p, i + 1, pending + [p[i]])
    else
      var m := Munch(p, i);
      if m.token.Bad? then [Bad] + Scan(p, i + 1, pending)
      else Flush(pending) + ([m.token] + Scan(p, m.next, []))
  }

  function Tokens(p: string): seq<Token> {
    Scan(p, 0, [])
  }

  /** Iterations of the inner loop from position `i` on. */
  function Steps(p: string, i: nat): nat
    requires i <= |p|
    decreases |p| - i
  {
    if i == |p| then 0
    else if LiteralAt(p, i) then Steps(p, i + 1)
    else Munch(p, i).steps + Steps(p, Munch(p, i).next)
  }

  function Table(name: string): Option<Kind> {
    if name == "m" then Some(Message)
    else if name == "p" then Some(Level)
    else if name == "r" then Some(Elapse)
    else if name == "c" then Some(LoggerName)
    else if name == "t" then Some(ThreadId)
    else if name == "n" then Some(NewLine)
    else if name == "d" then Some(DateTime)
    else if name == "f" then Some(Filename)
    else if name == "l" then Some(Line)
    else if name == "T" then Some(Tab)
    else if name == "F" then Some(FiberId)
    else if name == "N" then Some(ThreadId)
    else None
  }

  const ERROR_TEXT := "<<pattern_error>>"

  const DEFAULT_DATE := "%Y-%m-%d  %H:%M:%S"

  /** The item the second pass makes of a token. */
  function Build(t: Token): FormatItem {
    match t
    case Lit(text) => Text(text)
    case Bad => Text(ERROR_TEXT)
    case Dir(name, _, fmt) =>
      match Table(name)
      case None => Text("<<error_format %" + name + ">>")
      case Some(kind) => Field(kind, if kind == DateTime && fmt == "" then DEFAULT_DATE else fmt)
  }

  predicate GoodToken(t: Token) {
    match t
    case Lit(_) => true
    case Dir(name, _, _) => Table(name).Some?
    case Bad => false
  }

  predicate AllGood(ts: seq<Token>) {
    forall k :: 0 <= k < |ts| ==> GoodToken(ts[k])
  }

  /** The pattern compiles without setting the error flag. */
  predicate Accepts(p: string) {
    AllGood(Tokens(p))
  }

  // ---------------------------------------------------------------- printing

  function TokenSource(t: Token): string {
    match t
    case Lit(text) => text
    case Dir(name, brace, fmt) => "%" + name + (if brace then "{" + fmt + "}" else "")
    case Bad => ""
  }

  function Source(ts: seq<Token>): string {
    if ts == [] then "" else TokenSource(ts[0]) + Source(ts[1..])
  }

  lemma SourceCons(t: Token, ts: seq<Token>)
    ensures Source([t] + ts) == TokenSource(t) + Source(ts)
  {
    assert ([t] + ts)[1..] == ts;
  }

  lemma SourceFlush(pending: string, ts: seq<Token>)
    ensures Source(Flush(pending) + ts) == pending + Source(ts)
  {
    if pending == [] {
      assert Flush(pending) + ts == ts;
    } else {
      SourceCons(Lit(pending), ts);
    }
  }

  // ------------------------------------------------------ lossless tokenizing

  /** A percent sign, name characters, and an opening brace that is never closed. */
  predicate Unclosed(p: string, i: nat) {
    && i < |p| && p[i] == '%'
    && var e := NameEnd(p, i + 1);
       e < |p| && p[e] == '{' && forall k :: e < k < |p| ==> p[k] != '}'
  }

  /** Positions from `i` on at which the scanner meets an unclosed directive. */
  function BadAt(p: string, i: nat): (cuts: seq<nat>)
    requires i <= |p|
    ensures cuts != [] ==> i <= cuts[0]
    decreases |p| - i
  {
    if i == |p| then []
    else if LiteralAt(p, i) then BadAt(p, i + 1)
    else
      var m := Munch(p, i);
      if m.token.Bad? then [i] + BadAt(p, i + 1) else BadAt(p, m.next)
  }

  predicate Increasing(cuts: seq<nat>) {
    forall j, k :: 0 <= j < k < |cuts| ==> cuts[j] < cuts[k]
  }

  /** The text from `i` on without the characters at the increasing positions `cuts`. */
  function Cut(p: string, i: nat, cuts: seq<nat>): string
    requires i <= |p|
    decreases |p| - i
  {
    if i == |p| then []
    else if cuts != [] && cuts[0] == i then Cut(p, i + 1, cuts[1..])
    else [p[i]] + Cut(p, i + 1, cuts)
  }

  function CountBad(ts: seq<Token>): nat {
    if ts == [] then 0 else (if ts[0].Bad? then 1 else 0) + CountBad(ts[1..])
  }

  lemma {:induction false} CutSkips(p: string, i: nat, j: nat, cuts: seq<nat>)
    requires i <= j <= |p|
    requires cuts != [] ==> j <= cuts[0]
    ensures Cut(p, i, cuts) == p[i..j] + Cut(p, j, cuts)
    decreases j - i
  {
    if i < j {
      CutSkips(p, i + 1, j, cuts);
      assert p[i..j] == [p[i]] + p[i + 1..j];
    }
  }

  /** A name, and a name with its braces, in place. */
  lemma NameSlice(p: string, i: nat, e: nat)
    requires i < e <= |p| && p[i] == '%'
    ensures "%" + p[i + 1..e] == p[i..e]
  {
  }

  lemma BraceSlice(p: string, i: nat, e: nat, b: nat)
    requires i <= e < b < |p| && p[e] == '{' && p[b] == '}'
    ensures p[i..e] + ("{" + p[e + 1..b] + "}") == p[i..b + 1]
  {
  }

  lemma MunchSource(p: string, i: nat)
    requires i < |p| && p[i] == '%' && !Munch(p, i).token.Bad?
    ensures TokenSource(Munch(p, i).token) == p[i..Munch(p, i).next]
  {
    var e := NameEnd(p, i + 1);
    NameSlice(p, i, e);
    if e < |p| && p[e] == '{' {
      BraceSlice(p, i, e, FmtEnd(p, e + 1));
    } else {
      assert p[i..e] + "" == p[i..e];
    }
  }

  /** The text from `i` on without the percent signs of unclosed directives. */
  function Kept(p: string, i: nat): string
    requires i <= |p|
  {
    Cut(p, i, BadAt(p, i))
  }

  /** What one scanner step contributes to the text that survives. */
  lemma KeptStep(p: string, i: nat)
    requires i < |p|
    ensures LiteralAt(p, i) ==> Kept(p, i) == [p[i]] + Kept(p, i + 1)
    ensures !LiteralAt(p, i) ==>
              Kept(p, i) == TokenSource(Munch(p, i).token) + Kept(p, Munch(p, i).next)
  {
    if !LiteralAt(p, i) {
      var m := Munch(p, i);
      if m.token.Bad? {
        assert BadAt(p, i)[1..] == BadAt(p, i + 1);
      } else {
        CutSkips(p, i, m.next, BadAt(p, i));
        MunchSource(p, i);
      }
    }
  }

  lemma SourceStep(pending: string, t: Token, ts: seq<Token>)
    ensures Source(Flush(pending) + ([t] + ts)) == pending + (TokenSource(t) + Source(ts))
    ensures t.Bad? ==> Source([t] + ts) == Source(ts)
  {
    SourceFlush(pending, [t] + ts);
    SourceCons(t, ts);
  }

  lemma SourceOfLiteral(p: string, i: nat, pending: string)
    requires i < |p| && LiteralAt(p, i)
    requires Source(Scan(p, i + 1, pending + [p[i]])) == pending + [p[i]] + Kept(p, i + 1)
    ensures Source(Scan(p, i, pending)) == pending + Kept(p, i)
  {
    KeptStep(p, i);
    Assoc(pending, [p[i]], Kept(p, i + 1));
  }

  lemma SourceOfUnclosed(p: string, i: nat, pending: string)
    requires i < |p| && !LiteralAt(p, i) && Munch(p, i).token.Bad?
    requires Source(Scan(p, i + 1, pending)) == pending + Kept(p, i + 1)
    ensures Source(Scan(p, i, pending)) == pending + Kept(p, i)
  {
    KeptStep(p, i);
    SourceStep(pending, Bad, Scan(p, i + 1, pending));
    assert [] + Kept(p, i + 1) == Kept(p, i + 1);
  }

  lemma SourceOfDirective(p: string, i: nat, pending: string)
    requires i < |p| && !LiteralAt(p, i) && !Munch(p, i).token.Bad?
    requires Source(Scan(p, Munch(p, i).next, [])) == [] + Kept(p, Munch(p, i).next)
    ensures Source(Scan(p, i, pending)) == pending + Kept(p, i)
  {
    var m := Munch(p, i);
    var rest := Scan(p, m.next, []);
    KeptStep(p, i);
    assert Source(rest) == Kept(p, m.next);
    SourceStep(pending, m.token, rest);
  }

  lemma {:induction false} SourceOfScan(p: string, i: nat, pending: string)
    requires i <= |p|
    ensures Source(Scan(p, i, pending)) == pending + Kept(p, i)
    decreases |p| - i
  {
    if i == |p| {
      assert Source(Flush(pending)) == pending;
    } else if LiteralAt(p, i) {
      SourceOfScan(p, i + 1, pending + [p[i]]);
      SourceOfLiteral(p, i, pending);
    } else if Munch(p, i).token.Bad? {
      SourceOfScan(p, i + 1, pending);
      SourceOfUnclosed(p, i, pending);
    } else {
      SourceOfScan(p, Munch(p, i).next, []);
      SourceOfDirective(p, i, pending);
    }
  }

  /** Where the scanner goes on after one step, with what text pending. */
  function NextAt(p: string, i: nat): (next: nat)
    requires i < |p|
    ensures i < next <= |p|
  {
    if LiteralAt(p, i) then i + 1 else Munch(p, i).next
  }

  function NextPending(p: string, i: nat, pending: string): string
    requires i < |p|
  {
    if LiteralAt(p, i) then pending + [p[i]] else if Munch(p, i).token.Bad? then pending else []
  }

  function BadHere(p: string, i: nat): nat
    requires i < |p|
  {
    if !LiteralAt(p, i) && Munch(p, i).token.Bad? then 1 else 0
  }

  lemma BadAtStep(p: string, i: nat)
    requires i < |p|
    ensures BadAt(p, i) == (if BadHere(p, i) == 1 then [i] else []) + BadAt(p, NextAt(p, i))
    ensures BadHere(p, i) == 1 ==> Unclosed(p, i)
  {
  }

  lemma {:induction false} BadAtIncreasing(p: string, i: nat)
    requires i <= |p|
    ensures Increasing(BadAt(p, i))
    decreases |p| - i
  {
    if i < |p| {
      BadAtStep(p, i);
      BadAtIncreasing(p, NextAt(p, i));
    }
  }

  lemma CountBadCons(t: Token, ts: seq<Token>)
    ensures CountBad([t] + ts) == CountBad(ts) + if t.Bad? then 1 else 0
  {
    assert ([t] + ts)[1..] == ts;
  }

  lemma CountBadFlush(pending: string, ts: seq<Token>)
    ensures CountBad(Flush(pending) + ts) == CountBad(ts)
  {
    if pending == [] {
      assert Flush(pending) + ts == ts;
    } else {
      CountBadCons(Lit(pending), ts);
    }
  }

  lemma CountStep(p: string, i: nat, pending: string)
    requires i < |p|
    ensures CountBad(Scan(p, i, pending))
         == BadHere(p, i) + CountBad(Scan(p, NextAt(p, i), NextPending(p, i, pending)))
  {
    if !LiteralAt(p, i) {
      var m := Munch(p, i);
      var rest := Scan(p, m.next, if m.token.Bad? then pending else []);
      CountBadCons(m.token, rest);
      CountBadFlush(pending, [m.token] + rest);
    }
  }

  lemma {:induction false} BadAtCount(p: string, i: nat, pending: string)
    requires i <= |p|
    ensures |BadAt(p, i)| == CountBad(Scan(p, i, pending))
    decreases |p| - i
  {
    if i < |p| {
      BadAtStep(p, i);
      CountStep(p, i, pending);
      BadAtCount(p, NextAt(p, i), NextPending(p, i, pending));
    }
  }

  lemma {:induction false} BadAtUnclosed(p: string, i: nat, k: nat)
    requires i <= |p| && k < |BadAt(p, i)|
    ensures Unclosed(p, BadAt(p, i)[k])
    decreases |p| - i
  {
    BadAtStep(p, i);
    if k >= BadHere(p, i) {
      BadAtUnclosed(p, NextAt(p, i), k - BadHere(p, i));
    }
  }

  /** Tokenizing loses nothing: printing the tokens gives the pattern back without one percent
      sign for every directive whose brace is never closed. */
  lemma Lossless(p: string) returns (cuts: seq<nat>)
    ensures Source(Tokens(p)) == Cut(p, 0, cuts)
    ensures Increasing(cuts) && |cuts| == CountBad(Tokens(p))
    ensures forall k :: 0 <= k < |cuts| ==> Unclosed(p, cuts[k])
    ensures cuts == [] ==> Source(Tokens(p)) == p
  {
    cuts := BadAt(p, 0);
    SourceOfScan(p, 0, []);
    BadAtIncreasing(p, 0);
    BadAtCount(p, 0, []);
    forall k | 0 <= k < |cuts| ensures Unclosed(p, cuts[k]) {
      BadAtUnclosed(p, 0, k);
    }
    if cuts == [] {
      CutSkips(p, 0, |p|, cuts);
    }
  }
}
