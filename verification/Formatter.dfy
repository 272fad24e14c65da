/** LogFormatter: the two-pass pattern compiler, proved against the functions of `Pattern`. */
module Formatter {
  import opened Wrappers
  import opened Pattern
  import opened PatternGrammar
  import LogTypes

  /** The (str, fmt, type) tuples handed from the first pass to the second. */
  datatype Entry = Entry(str: string, fmt: string, kind: int)

  function Erase(t: Token): Entry {
    match t
    case Lit(text) => Entry(text, "", 0)
    case Dir(name, _, fmt) => Entry(name, fmt, 1)
    case Bad => Entry(ERROR_TEXT, "", 0)
  }

  ghost predicate Erases(vec: seq<Entry>, ts: seq<Token>) {
    |vec| == |ts| && forall k :: 0 <= k < |ts| ==> vec[k] == Erase(ts[k])
  }

  ghost predicate Builds(items: seq<FormatItem>, ts: seq<Token>) {
    |items| == |ts| && forall k :: 0 <= k < |ts| ==> items[k] == Build(ts[k])
  }

  /** Item by item, what the tokens mean. */
  ghost predicate AllMean(items: seq<FormatItem>, ts: seq<Token>) {
    |items| == |ts| && forall k :: 0 <= k < |ts| ==> Means(items[k], ts[k])
  }

  lemma BuiltMeans(items: seq<FormatItem>, ts: seq<Token>)
    requires Builds(items, ts)
    ensures AllMean(items, ts)
  {
    forall k | 0 <= k < |ts| ensures Means(items[k], ts[k]) {
      BuildMeans(ts[k]);
    }
  }

  /** What one item prints for an event. */
  datatype Piece = Piece(item: FormatItem, level: LogTypes.Level, event: LogTypes.Event)

  function Rendered(items: seq<FormatItem>, level: LogTypes.Level, event: LogTypes.Event): (r: seq<Piece>)
    ensures |r| == |items| && forall k :: 0 <= k < |r| ==> r[k] == Piece(items[k], level, event)
  {
    seq(|items|, k requires 0 <= k < |items| => Piece(items[k], level, event))
  }

  ghost predicate HasBad(ts: seq<Token>) {
    exists k :: 0 <= k < |ts| && ts[k].Bad?
  }

  lemma NameEndIs(p: string, i: nat, e: nat)
    requires i <= e <= |p|
    requires forall k :: i <= k < e ==> NameChar(p[k])
    requires e < |p| ==> !NameChar(p[e])
    ensures NameEnd(p, i) == e
  {
  }

  lemma FmtEndIs(p: string, i: nat, e: nat)
    requires i <= e <= |p|
    requires forall k :: i <= k < e ==> p[k] != '}'
    requires e < |p| ==> p[e] == '}'
    ensures FmtEnd(p, i) == e
  {
  }

  /** The inner loop of the scanner: reads the directive whose percent sign is at `i`. */
  method ReadDirective(p: string, i: nat)
    returns (fmtStatus: nat, str: string, fmt: string, n: nat, ghost steps: nat)
    requires i < |p|
    ensures fmtStatus == if Munch(p, i).token.Bad? then 1 else 0
    ensures fmtStatus == 0 ==> Entry(str, fmt, 1) == Erase(Munch(p, i).token) && n == Munch(p, i).next
    ensures fmtStatus == 1 ==> fmt == ""
    ensures steps == Munch(p, i).steps
  {
    n := i + 1;
    fmtStatus := 0;
    var fmtBegin := 0;
    str, fmt, steps := "", "", 0;
    if n == |p| {
      NameEndIs(p, n, n);
    }
    while n < |p|
      invariant i + 1 <= n <= |p| && fmt == "" && steps == n - i - 1
      invariant fmtStatus == 0 || fmtStatus == 1
      invariant fmtStatus == 0 ==> forall k :: i + 1 <= k < n ==> NameChar(p[k])
      invariant fmtStatus == 0 ==> str == if n == |p| then p[i + 1..] else ""
      invariant fmtStatus == 1 ==> i < fmtBegin < n && NameEnd(p, i + 1) == fmtBegin && p[fmtBegin] == '{'
      invariant fmtStatus == 1 ==> forall k :: fmtBegin < k < n ==> p[k] != '}'
      invariant fmtStatus == 1 && n < |p| ==> str == p[i + 1..fmtBegin]
    {
      steps := steps + 1;
      if fmtStatus == 0 && !IsAlpha(p[n]) && p[n] != '{' && p[n] != '}' {
        NameEndIs(p, i + 1, n);
        str := p[i + 1..n];
        break;
      }
      if fmtStatus == 0 {
        if p[n] == '{' {
          NameEndIs(p, i + 1, n);
          str := p[i + 1..n];
          fmtStatus := 1;
          fmtBegin := n;
          n := n + 1;
          continue;
        }
      } else if fmtStatus == 1 {
        if p[n] == '}' {
          FmtEndIs(p, fmtBegin + 1, n);
          fmt := p[fmtBegin + 1..n];
          fmtStatus := 0;
          n := n + 1;
          break;
        }
      }
      n := n + 1;
      if n == |p| {
        if str == "" {
          str := p[i + 1..];
        }
        if fmtStatus == 0 {
          NameEndIs(p, i + 1, n);
        }
      }
    }
    if fmtStatus == 1 {
      FmtEndIs(p, fmtBegin + 1, |p|);
    }
  }

  /** The scanner's state: `ts` are the tokens read so far and the rest is still to come. */
  ghost predicate Scanned(p: string, i: nat, nstr: string, ts: seq<Token>, vec: seq<Entry>) {
    i <= |p| && ts + Scan(p, i, nstr) == Tokens(p) && Erases(vec, ts)
  }

  lemma LiteralScanned(p: string, i: nat, nstr: string, ts: seq<Token>, vec: seq<Entry>)
    requires i < |p| && LiteralAt(p, i) && Scanned(p, i, nstr, ts, vec)
    ensures Scanned(p, i + 1, nstr + [p[i]], ts, vec) && Steps(p, i) == Steps(p, i + 1)
  {
  }

  lemma DirectiveScanned(p: string, i: nat, nstr: string, ts: seq<Token>, vec: seq<Entry>)
    requires i < |p| && !LiteralAt(p, i) && !Munch(p, i).token.Bad?
    requires Scanned(p, i, nstr, ts, vec)
    ensures var m := Munch(p, i);
            var flushed := if nstr == "" then vec else vec + [Entry(nstr, "", 0)];
            && Scanned(p, m.next, "", ts + (Flush(nstr) + [m.token]), flushed + [Erase(m.token)])
            && (HasBad(ts + (Flush(nstr) + [m.token])) <==> HasBad(ts))
  {
    var m := Munch(p, i);
    var rest := Scan(p, m.next, []);
    Assoc(Flush(nstr), [m.token], rest);
    Assoc(ts, Flush(nstr) + [m.token], rest);
    HasBadAppend(ts, Flush(nstr) + [m.token]);
  }

  lemma BadScanned(p: string, i: nat, nstr: string, ts: seq<Token>, vec: seq<Entry>)
    requires i < |p| && !LiteralAt(p, i) && Munch(p, i).token.Bad?
    requires Scanned(p, i, nstr, ts, vec)
    ensures Scanned(p, i + 1, nstr, ts + [Bad], vec + [Erase(Bad)])
    ensures HasBad(ts + [Bad])
  {
    Assoc(ts, [Bad], Scan(p, i + 1, nstr));
    assert (ts + [Bad])[|ts|].Bad?;
  }

  lemma AllScanned(p: string, nstr: string, ts: seq<Token>, vec: seq<Entry>)
    requires Scanned(p, |p|, nstr, ts, vec)
    ensures Erases(if nstr == "" then vec else vec + [Entry(nstr, "", 0)], Tokens(p))
    ensures HasBad(Tokens(p)) <==> HasBad(ts)
  {
    HasBadAppend(ts, Flush(nstr));
    assert ts + [] == ts;
  }

  lemma HasBadAppend(a: seq<Token>, b: seq<Token>)
    ensures HasBad(a + b) <==> HasBad(a) || HasBad(b)
  {
    if HasBad(a) {
      var k :| 0 <= k < |a| && a[k].Bad?;
      assert (a + b)[k].Bad?;
    }
    if HasBad(b) {
      var k :| 0 <= k < |b| && b[k].Bad?;
      assert (a + b)[|a| + k].Bad?;
    }
  }

  class LogFormatter {
    const m_pattern: string
    var m_items: seq<FormatItem>
    var m_error: bool

    /** The items are those of the pattern, and the flag says whether it is in the grammar. */
    ghost predicate Valid()
      reads this
    {
      Builds(m_items, Tokens(m_pattern)) && (m_error <==> !Accepts(m_pattern))
    }

    constructor (pattern: string)
      ensures m_pattern == pattern && Valid()
      ensures AllMean(m_items, Tokens(pattern))
      ensures forall ts :: Canonical(ts) && Source(ts) == pattern ==> !m_error && AllMean(m_items, ts)
    {
      m_pattern := pattern;
      m_items := [];
      m_error := false;
      new;
      var _ := Init();
      AcceptsIffGrammar(pattern);
    }

    method IsError() returns (error: bool)
      ensures error == m_error
    {
      error := m_error;
    }

    /** Writes the items' output for the event, in order. */
    method Format(os: seq<Piece>, level: LogTypes.Level, event: LogTypes.Event) returns (out: seq<Piece>)
      ensures out == os + Rendered(m_items, level, event)
    {
      out := os;
      var k := 0;
      while k < |m_items|
        invariant k <= |m_items| && out == os + Rendered(m_items, level, event)[..k]
      {
        out := out + [Piece(m_items[k], level, event)];
        k := k + 1;
      }
    }

    /** First pass: split the pattern into entries; `steps` counts inner-loop iterations. */
    method Tokenize() returns (vec: seq<Entry>, ghost steps: nat)
      modifies this`m_error
      ensures Erases(vec, Tokens(m_pattern))
      ensures m_error <==> old(m_error) || HasBad(Tokens(m_pattern))
      ensures steps == Steps(m_pattern, 0)
    {
      var p := m_pattern;
      vec, steps := [], 0;
      var nstr := "";
      var i := 0;
      ghost var ts := [];
      while i < |p|
        invariant Scanned(p, i, nstr, ts, vec)
        invariant steps + Steps(p, i) == Steps(p, 0)
        invariant m_error <==> old(m_error) || HasBad(ts)
      {
        if p[i] != '%' {
          LiteralScanned(p, i, nstr, ts, vec);
          nstr := nstr + [p[i]];
          i := i + 1;
          continue;
        }
        if i + 1 < |p| {
          if p[i + 1] == '%' {
            LiteralScanned(p, i, nstr, ts, vec);
            nstr := nstr + ['%'];
            i := i + 1;
            continue;
          }
        }
        var fmtStatus, str, fmt, n;
        ghost var read;
        fmtStatus, str, fmt, n, read := ReadDirective(p, i);
        steps := steps + read;
        if fmtStatus == 0 {
          DirectiveScanned(p, i, nstr, ts, vec);
          ts := ts + (Flush(nstr) + [Munch(p, i).token]);
          if nstr != "" {
            vec := vec + [Entry(nstr, "", 0)];
            nstr := "";
          }
          vec := vec + [Entry(str, fmt, 1)];
          i := n - 1;
        } else if fmtStatus == 1 {
          BadScanned(p, i, nstr, ts, vec);
          ts := ts + [Bad];
          m_error := true;
          vec := vec + [Entry(ERROR_TEXT, fmt, 0)];
        }
        i := i + 1;
      }
      AllScanned(p, nstr, ts, vec);
      if nstr != "" {
        vec := vec + [Entry(nstr, "", 0)];
      }
    }

    /** Second pass: look every directive up and build the items. */
    method BuildItems(vec: seq<Entry>, ghost ts: seq<Token>)
      requires Erases(vec, ts)
      modifies this`m_items, this`m_error
      ensures |old(m_items)| <= |m_items| && m_items[..|old(m_items)|] == old(m_items)
      ensures Builds(m_items[|old(m_items)|..], ts)
      ensures AllMean(m_items[|old(m_items)|..], ts)
      ensures m_error <==> old(m_error) || exists j :: 0 <= j < |ts| && ts[j].Dir? && !GoodToken(ts[j])
    {
      ghost var start := |m_items|;
      var k := 0;
      while k < |vec|
        invariant k <= |vec| && |m_items| == start + k
        invariant m_items[..start] == old(m_items)
        invariant forall j :: 0 <= j < k ==> m_items[start + j] == Build(ts[j])
        invariant m_error <==> old(m_error) || exists j :: 0 <= j < k && ts[j].Dir? && !GoodToken(ts[j])
      {
        if vec[k].kind == 0 {
          m_items := m_items + [Text(vec[k].str)];
        } else {
          match Table(vec[k].str)
          case None =>
            m_items := m_items + [Text("<<error_format %" + vec[k].str + ">>")];
            m_error := true;
          case Some(kind) =>
            m_items := m_items + [Field(kind, if kind == DateTime && vec[k].fmt == "" then DEFAULT_DATE
                                              else vec[k].fmt)];
        }
        k := k + 1;
      }
      BuiltMeans(m_items[start..], ts);
    }

    /** The compiler. Running it again appends a second copy of the items, as the code does. */
    method Init() returns (ghost steps: nat)
      modifies this
      ensures |old(m_items)| <= |m_items| && m_items[..|old(m_items)|] == old(m_items)
      ensures Builds(m_items[|old(m_items)|..], Tokens(m_pattern))
      ensures AllMean(m_items[|old(m_items)|..], Tokens(m_pattern))
      ensures m_error <==> old(m_error) || !Accepts(m_pattern)
      ensures steps <= |m_pattern| * |m_pattern| / 4
      ensures CountBad(Tokens(m_pattern)) == 0 ==> steps <= |m_pattern|
    {
      var vec;
      vec, steps := Tokenize();
      StepBound(m_pattern);
      BuildItems(vec, Tokens(m_pattern));
    }
  }

  /** The formatter of the printed tokens has exactly their items. */
  lemma ItemsOfPrinted(f: LogFormatter, ts: seq<Token>)
    requires f.Valid() && Canonical(ts) && f.m_pattern == Source(ts)
    ensures !f.m_error && Builds(f.m_items, ts)
  {
    ParseOfPrint(ts);
  }

  lemma OneToken(f: LogFormatter, t: Token)
    requires f.Valid() && CanonicalHead(t, []) && f.m_pattern == TokenSource(t)
    ensures !f.m_error && f.m_items == [Build(t)]
  {
    assert [t][1..] == [] && Canonical([]);
    assert Source([t]) == TokenSource(t) + "" == TokenSource(t);
    ItemsOfPrinted(f, [t]);
  }

  lemma OneLiteral(f: LogFormatter)
    requires f.Valid() && f.m_pattern != "" && '%' !in f.m_pattern
    ensures !f.m_error && f.m_items == [Text(f.m_pattern)]
  {
    OneToken(f, Lit(f.m_pattern));
  }

  /** A directive on its own, for each of the twelve names. */
  lemma OneDirective(f: LogFormatter, name: string)
    requires f.Valid() && f.m_pattern == "%" + name && Table(name).Some?
    ensures !f.m_error && f.m_items == [Build(Dir(name, false, ""))]
  {
    assert "%" + name + "" == "%" + name;
    OneToken(f, Dir(name, false, ""));
  }

  lemma OneFormatted(f: LogFormatter, name: string, fmt: string)
    requires f.Valid() && f.m_pattern == "%" + name + "{" + fmt + "}" && Table(name).Some? && '}' !in fmt
    ensures !f.m_error && f.m_items == [Build(Dir(name, true, fmt))]
  {
    assert "%" + name + ("{" + fmt + "}") == "%" + name + "{" + fmt + "}";
    OneToken(f, Dir(name, true, fmt));
  }

  lemma DirectiveItems(f: LogFormatter, name: string)
    requires f.Valid() && f.m_pattern == "%" + name
    ensures name == "m" ==> f.m_items == [Field(Message, "")]
    ensures name == "p" ==> f.m_items == [Field(Level, "")]
    ensures name == "r" ==> f.m_items == [Field(Elapse, "")]
    ensures name == "c" ==> f.m_items == [Field(LoggerName, "")]
    ensures name == "t" ==> f.m_items == [Field(ThreadId, "")]
    ensures name == "n" ==> f.m_items == [Field(NewLine, "")]
    ensures name == "d" ==> f.m_items == [Field(DateTime, "%Y-%m-%d  %H:%M:%S")]
    ensures name == "f" ==> f.m_items == [Field(Filename, "")]
    ensures name == "l" ==> f.m_items == [Field(Line, "")]
    ensures name == "T" ==> f.m_items == [Field(Tab, "")]
    ensures name == "F" ==> f.m_items == [Field(FiberId, "")]
    ensures name == "N" ==> f.m_items == [Field(ThreadId, "")]
  {
    if Table(name).Some? {
      OneDirective(f, name);
      KindOfName(name, false, "");
    }
  }

  lemma FormattedItems(f: LogFormatter, name: string, fmt: string)
    requires f.Valid() && f.m_pattern == "%" + name + "{" + fmt + "}" && '}' !in fmt
    ensures name == "m" ==> f.m_items == [Field(Message, fmt)]
    ensures name == "p" ==> f.m_items == [Field(Level, fmt)]
    ensures name == "r" ==> f.m_items == [Field(Elapse, fmt)]
    ensures name == "c" ==> f.m_items == [Field(LoggerName, fmt)]
    ensures name == "t" ==> f.m_items == [Field(ThreadId, fmt)]
    ensures name == "n" ==> f.m_items == [Field(NewLine, fmt)]
    ensures name == "d" ==> f.m_items == [Field(DateTime, if fmt == "" then "%Y-%m-%d  %H:%M:%S" else fmt)]
    ensures name == "f" ==> f.m_items == [Field(Filename, fmt)]
    ensures name == "l" ==> f.m_items == [Field(Line, fmt)]
    ensures name == "T" ==> f.m_items == [Field(Tab, fmt)]
    ensures name == "F" ==> f.m_items == [Field(FiberId, fmt)]
    ensures name == "N" ==> f.m_items == [Field(ThreadId, fmt)]
  {
    if Table(name).Some? {
      OneFormatted(f, name, fmt);
      KindOfName(name, true, fmt);
    }
  }
}
