/** Reading and writing one log definition as a YAML tree. */
module Defines {
  import opened Wrappers
  import opened Names
  import opened LogTypes

  // -------------------------------------------------------------- access to the tree

  function Find(entries: seq<Entry>, key: string): Option<Node> {
    if entries == [] then None
    else if entries[0].key == key then Some(entries[0].value)
    else Find(entries[1..], key)
  }

  /** n[key]: None is an undefined node; a scalar has no members and throws. */
  function Get(n: Node, key: string): Result<Option<Node>> {
    match n
    case Map(entries) => Ok(Find(entries, key))
    case Scalar(_) => Exception
    case _ => Ok(None)
  }

  function AsString(n: Node): Result<string> {
    if n.Scalar? then Ok(n.text) else Exception
  }

  /** The string at `key`, or `default` when there is none. */
  function GetString(n: Node, key: string, default: string): Result<string> {
    var v :- Get(n, key);
    if v.Some? then AsString(v.value) else Ok(default)
  }

  // ------------------------------------------------------------------------ parsing

  /** One appender entry; None is an entry that is reported and skipped. */
  function ParseAppender(a: Node): Result<Option<AppenderDefine>> {
    var t :- Get(a, "type");
    if t.None? then Ok(None)
    else
      var typ :- AsString(t.value);
      if typ == "FileLogAppender" then
        var f :- Get(a, "file");
        if f.None? then Ok(None)
        else
          var file :- AsString(f.value);
          var formatter :- GetString(a, "formatter", "");
          Ok(Some(AppenderDefine(1, Unknown, formatter, file)))
      else if typ == "StdoutLogAppender" then
        var formatter :- GetString(a, "formatter", "");
        Ok(Some(AppenderDefine(2, Unknown, formatter, "")))
      else Ok(None)
  }

  /** The entries kept from a list, or an exception of the first one that throws. */
  function ParseAppenders(items: seq<Node>): Result<seq<AppenderDefine>> {
    if items == [] then Ok([])
    else
      var before :- ParseAppenders(items[..|items| - 1]);
      var last :- ParseAppender(items[|items| - 1]);
      Ok(before + if last.Some? then [last.value] else [])
  }

  /** The elements of an `appenders` node: only a sequence has any. */
  function Elements(n: Node): seq<Node> {
    if n.Sequence? then n.items else []
  }

  function Parse(n: Node): Result<LogDefine> {
    var name :- Get(n, "name");
    if name.None? then Exception
    else
      var nameText :- AsString(name.value);
      var level :- GetString(n, "level", "");
      var formatter :- GetString(n, "formatter", "");
      var apps :- Get(n, "appenders");
      var appenders :- ParseAppenders(if apps.Some? then Elements(apps.value) else []);
      Ok(LogDefine(nameText, LevelFromString(level), formatter, appenders))
  }

  // ------------------------------------------------- exactly what throws, and what is skipped

  function Member(n: Node, key: string): Option<Node> {
    if n.Map? then Find(n.entries, key) else None
  }

  /** Of several members with one key the first counts. */
  lemma {:induction false} FindIsFirst(entries: seq<Entry>, key: string, k: nat)
    requires k < |entries| && entries[k].key == key && forall j :: 0 <= j < k ==> entries[j].key != key
    ensures Find(entries, key) == Some(entries[k].value)
  {
    if k > 0 {
      FindIsFirst(entries[1..], key, k - 1);
    }
  }

  /** The member is there and is not a text. */
  predicate BadText(n: Node, key: string) {
    Member(n, key).Some? && !Member(n, key).value.Scalar?
  }

  predicate HasText(n: Node, key: string, text: string) {
    Member(n, key) == Some(Scalar(text))
  }

  lemma AppenderThrowsIff(a: Node)
    ensures ParseAppender(a).Exception?
            <==> a.Scalar? || BadText(a, "type")
                 || (HasText(a, "type", "FileLogAppender") && Member(a, "file").Some?
                     && (BadText(a, "file") || BadText(a, "formatter")))
                 || (HasText(a, "type", "StdoutLogAppender") && BadText(a, "formatter"))
  {
  }

  /** An entry is skipped if and only if it has no type, another type, or is a file without a file. */
  lemma AppenderSkippedIff(a: Node)
    ensures ParseAppender(a) == Ok(None)
            <==> !a.Scalar? && !BadText(a, "type")
                 && (HasText(a, "type", "FileLogAppender") ==> Member(a, "file").None?)
                 && !HasText(a, "type", "StdoutLogAppender")
  {
  }

  /** What is kept: the file, and the formatter or an empty one. */
  lemma AppenderKept(a: Node, file: string, formatter: string)
    requires !a.Scalar?
    requires if formatter == "" then Member(a, "formatter").None? else HasText(a, "formatter", formatter)
    ensures HasText(a, "type", "FileLogAppender") && HasText(a, "file", file) ==>
              ParseAppender(a) == Ok(Some(AppenderDefine(1, Unknown, formatter, file)))
    ensures HasText(a, "type", "StdoutLogAppender") ==>
              ParseAppender(a) == Ok(Some(AppenderDefine(2, Unknown, formatter, "")))
  {
  }

  lemma {:induction false} AppendersThrowIff(items: seq<Node>)
    ensures ParseAppenders(items).Exception? <==> exists k :: 0 <= k < |items| && ParseAppender(items[k]).Exception?
  {
    if items != [] {
      var last := |items| - 1;
      AppendersThrowIff(items[..last]);
      assert forall k :: 0 <= k < last ==> items[..last][k] == items[k];
    }
  }

  /** A definition throws if and only if it is a bare text, has no name, one of its texts is none, or
      an appender entry throws. */
  lemma ParseThrowsIff(n: Node)
    ensures Parse(n).Exception?
            <==> n.Scalar? || Member(n, "name").None?
                 || BadText(n, "name") || BadText(n, "level") || BadText(n, "formatter")
                 || exists a :: a in ItemsOf(n) && ParseAppender(a).Exception?
  {
    AppendersThrowIff(ItemsOf(n));
    assert forall k :: 0 <= k < |ItemsOf(n)| ==> ItemsOf(n)[k] in ItemsOf(n);
  }

  /** The entries of the definition's `appenders`. */
  function ItemsOf(n: Node): seq<Node> {
    if Member(n, "appenders").Some? then Elements(Member(n, "appenders").value) else []
  }

  method ReadAppenders(items: seq<Node>) returns (r: Result<seq<AppenderDefine>>)
    ensures r == ParseAppenders(items)
  {
    var appenders := [];
    var x := 0;
    while x < |items|
      invariant x <= |items| && ParseAppenders(items[..x]) == Ok(appenders)
    {
      assert items[..x + 1][..x] == items[..x];
      var lad := ParseAppender(items[x]);
      if lad.Exception? {
        ThrowsOnce(items, x + 1);
        return Exception;
      }
      assert appenders + [] == appenders;
      if lad.value.Some? {
        appenders := appenders + [lad.value.value];
      }
      x := x + 1;
    }
    assert items[..x] == items;
    r := Ok(appenders);
  }

  lemma {:induction false} ThrowsOnce(items: seq<Node>, x: nat)
    requires x <= |items| && ParseAppenders(items[..x]).Exception?
    ensures ParseAppenders(items).Exception?
    decreases |items| - x
  {
    if x == |items| {
      assert items[..x] == items;
    } else {
      assert items[..x + 1][..x] == items[..x];
      ThrowsOnce(items, x + 1);
    }
  }

  // ----------------------------------------------------------------------- printing

  function Optional(key: string, value: string): seq<Entry> {
    if value == "" then [] else [Entry(key, Scalar(value))]
  }

  function LevelEntry(level: Level): seq<Entry> {
    if level == Unknown then [] else [Entry("level", Scalar(LevelToString(level)))]
  }

  function PrintAppender(a: AppenderDefine): Node {
    var kind := if a.typ == 1 then [Entry("type", Scalar("FileLogAppender")), Entry("file", Scalar(a.file))]
                else if a.typ == 2 then [Entry("type", Scalar("StdoutLogAppender"))]
                else [];
    var entries := kind + (LevelEntry(a.level) + Optional("formatter", a.formatter));
    if entries == [] then Null else Map(entries)
  }

  function PrintAppenders(appenders: seq<AppenderDefine>): seq<Node> {
    seq(|appenders|, i requires 0 <= i < |appenders| => PrintAppender(appenders[i]))
  }

  function Print(d: LogDefine): Node {
    Map([Entry("name", Scalar(d.name))]
        + (LevelEntry(d.level)
           + (Optional("formatter", d.formatter)
              + if d.appenders == [] then [] else [Entry("appenders", Sequence(PrintAppenders(d.appenders)))])))
  }

  lemma PrintedEntries(d: LogDefine)
    ensures Print(d).entries
         == [Entry("name", Scalar(d.name))] + LevelEntry(d.level) + Optional("formatter", d.formatter)
            + if d.appenders == [] then [] else [Entry("appenders", Sequence(PrintAppenders(d.appenders)))]
  {
  }

  method WriteDefine(d: LogDefine) returns (n: Node)
    ensures n == Print(d)
  {
    var entries := [Entry("name", Scalar(d.name))];
    if d.level != Unknown {
      entries := entries + [Entry("level", Scalar(LevelToString(d.level)))];
    }
    assert entries == [Entry("name", Scalar(d.name))] + LevelEntry(d.level);
    if d.formatter != "" {
      entries := entries + [Entry("formatter", Scalar(d.formatter))];
    }
    ghost var head := [Entry("name", Scalar(d.name))] + LevelEntry(d.level) + Optional("formatter", d.formatter);
    assert entries == head && head + [] == head;
    var items := [];
    var k := 0;
    while k < |d.appenders|
      invariant k <= |d.appenders| && items == PrintAppenders(d.appenders)[..k]
    {
      items := items + [PrintAppender(d.appenders[k])];
      k := k + 1;
    }
    assert items == PrintAppenders(d.appenders);
    if items != [] {
      entries := entries + [Entry("appenders", Sequence(items))];
    }
    n := Map(entries);
    PrintedEntries(d);
  }

  // -------------------------------------------------------------------- normal form

  predicate NormalAppender(a: AppenderDefine) {
    (a.typ == 1 || (a.typ == 2 && a.file == "")) && a.level == Unknown
  }

  predicate Normal(d: LogDefine) {
    forall k :: 0 <= k < |d.appenders| ==> NormalAppender(d.appenders[k])
  }

  lemma {:induction false} ParsedAppendersAreNormal(items: seq<Node>)
    requires ParseAppenders(items).Ok?
    ensures forall k :: 0 <= k < |ParseAppenders(items).value| ==> NormalAppender(ParseAppenders(items).value[k])
  {
    if items != [] {
      ParsedAppendersAreNormal(items[..|items| - 1]);
    }
  }

  /** Whatever parses, parses to a value with known appender types, no appender level, and files
      only on file appenders. */
  lemma ParsedIsNormal(n: Node)
    requires Parse(n).Ok?
    ensures Normal(Parse(n).value)
  {
    var apps := Get(n, "appenders").value;
    ParsedAppendersAreNormal(if apps.Some? then Elements(apps.value) else []);
  }

  lemma LevelSurvives(level: Level)
    ensures LevelFromString(LevelToString(level)) == level
  {
  }

  /** What is left of an appender after printing and parsing. */
  function Kept(a: AppenderDefine): seq<AppenderDefine> {
    if a.typ == 1 then [AppenderDefine(1, Unknown, a.formatter, a.file)]
    else if a.typ == 2 then [AppenderDefine(2, Unknown, a.formatter, "")]
    else []
  }

  function AllKept(appenders: seq<AppenderDefine>): seq<AppenderDefine> {
    if appenders == [] then []
    else AllKept(appenders[..|appenders| - 1]) + Kept(appenders[|appenders| - 1])
  }

  lemma FindAfter(a: seq<Entry>, b: seq<Entry>, key: string)
    requires forall k :: 0 <= k < |a| ==> a[k].key != key
    ensures Find(a + b, key) == Find(b, key)
  {
    if a == [] {
      assert a + b == b;
    } else {
      FindAfter(a[1..], b, key);
      assert (a + b)[1..] == a[1..] + b;
    }
  }

  lemma FindOptional(key: string, value: string, rest: seq<Entry>)
    ensures Find(Optional(key, value) + rest, key) == if value == "" then Find(rest, key) else Some(Scalar(value))
  {
    if value == "" {
      assert Optional(key, value) + rest == rest;
    }
  }

  /** The members every printed appender may have, after those that tell its kind. */
  lemma FormatterOfTail(kind: seq<Entry>, a: AppenderDefine)
    requires forall k :: 0 <= k < |kind| ==> kind[k].key != "formatter"
    ensures Find(kind + (LevelEntry(a.level) + Optional("formatter", a.formatter)), "formatter")
         == if a.formatter == "" then None else Some(Scalar(a.formatter))
  {
    FindAfter(kind, LevelEntry(a.level) + Optional("formatter", a.formatter), "formatter");
    FindAfter(LevelEntry(a.level), Optional("formatter", a.formatter), "formatter");
  }

  /** How an appender is printed, member by member; its level is printed, too. */
  lemma PrintedAppender(a: AppenderDefine)
    ensures var n := PrintAppender(a);
            && (a.typ == 1 ==> HasText(n, "type", "FileLogAppender") && HasText(n, "file", a.file))
            && (a.typ == 2 ==> HasText(n, "type", "StdoutLogAppender"))
            && (a.typ == 1 || a.typ == 2 ==>
                 Member(n, "level") == if a.level == Unknown then None else Some(Scalar(LevelToString(a.level))))
  {
    var tail := LevelEntry(a.level) + Optional("formatter", a.formatter);
    var kind := if a.typ == 1 then [Entry("type", Scalar("FileLogAppender")), Entry("file", Scalar(a.file))]
                else [Entry("type", Scalar("StdoutLogAppender"))];
    if a.typ == 1 {
      FindIsFirst(kind + tail, "file", 1);
    }
    if a.typ == 1 || a.typ == 2 {
      FindIsFirst(kind + tail, "type", 0);
      FindAfter(kind, tail, "level");
      if a.level == Unknown {
        assert tail == Optional("formatter", a.formatter);
      } else {
        FindIsFirst(tail, "level", 0);
      }
    }
  }

  lemma FileAppenderSurvives(a: AppenderDefine)
    requires a.typ == 1
    ensures ParseAppender(PrintAppender(a)) == Ok(Some(Kept(a)[0]))
  {
    var kind := [Entry("type", Scalar("FileLogAppender")), Entry("file", Scalar(a.file))];
    var tail := LevelEntry(a.level) + Optional("formatter", a.formatter);
    FormatterOfTail(kind, a);
    FindAfter([kind[0]], [kind[1]] + tail, "file");
    assert kind + tail == [kind[0]] + ([kind[1]] + tail);
  }

  lemma StdoutAppenderSurvives(a: AppenderDefine)
    requires a.typ == 2
    ensures ParseAppender(PrintAppender(a)) == Ok(Some(Kept(a)[0]))
  {
    FormatterOfTail([Entry("type", Scalar("StdoutLogAppender"))], a);
  }

  lemma UnknownAppenderIsSkipped(a: AppenderDefine)
    requires a.typ != 1 && a.typ != 2
    ensures ParseAppender(PrintAppender(a)) == Ok(None)
  {
    var tail := LevelEntry(a.level) + Optional("formatter", a.formatter);
    assert [] + tail == tail && tail + [] == tail;
    FindAfter(tail, [], "type");
  }

  lemma {:induction false} AppendersSurvive(appenders: seq<AppenderDefine>)
    ensures ParseAppenders(PrintAppenders(appenders)) == Ok(AllKept(appenders))
  {
    if appenders != [] {
      var last := |appenders| - 1;
      AppendersSurvive(appenders[..last]);
      if appenders[last].typ == 1 {
        FileAppenderSurvives(appenders[last]);
      } else if appenders[last].typ == 2 {
        StdoutAppenderSurvives(appenders[last]);
      } else {
        UnknownAppenderIsSkipped(appenders[last]);
      }
      assert PrintAppenders(appenders)[..last] == PrintAppenders(appenders[..last]);
    }
  }

  /** A printed definition, member by member. */
  lemma PrintedLevel(d: LogDefine)
    ensures GetString(Print(d), "level", "") == Ok(if d.level == Unknown then "" else LevelToString(d.level))
  {
    var apps := if d.appenders == [] then [] else [Entry("appenders", Sequence(PrintAppenders(d.appenders)))];
    var rest := Optional("formatter", d.formatter) + apps;
    FindAfter([Entry("name", Scalar(d.name))], LevelEntry(d.level) + rest, "level");
    FindAfter(Optional("formatter", d.formatter), apps, "level");
    FindOptional("level", if d.level == Unknown then "" else LevelToString(d.level), rest);
  }

  lemma PrintedFormatter(d: LogDefine)
    ensures GetString(Print(d), "formatter", "") == Ok(d.formatter)
  {
    var formatter := Optional("formatter", d.formatter);
    var apps := if d.appenders == [] then [] else [Entry("appenders", Sequence(PrintAppenders(d.appenders)))];
    FindAfter([Entry("name", Scalar(d.name))], LevelEntry(d.level) + (formatter + apps), "formatter");
    FindAfter(LevelEntry(d.level), formatter + apps, "formatter");
    FindOptional("formatter", d.formatter, apps);
  }

  lemma PrintedAppenders(d: LogDefine)
    ensures Get(Print(d), "appenders")
         == Ok(if d.appenders == [] then None else Some(Sequence(PrintAppenders(d.appenders))))
  {
    var formatter := Optional("formatter", d.formatter);
    var apps := if d.appenders == [] then [] else [Entry("appenders", Sequence(PrintAppenders(d.appenders)))];
    FindAfter([Entry("name", Scalar(d.name))], LevelEntry(d.level) + (formatter + apps), "appenders");
    FindAfter(LevelEntry(d.level), formatter + apps, "appenders");
    FindAfter(formatter, apps, "appenders");
  }

  /** Parse in terms of the members it asks for. */
  lemma ParseOfMembers(n: Node, name: string, level: string, formatter: string, apps: Option<Node>)
    requires Get(n, "name") == Ok(Some(Scalar(name)))
    requires GetString(n, "level", "") == Ok(level) && GetString(n, "formatter", "") == Ok(formatter)
    requires Get(n, "appenders") == Ok(apps)
    requires ParseAppenders(if apps.Some? then Elements(apps.value) else []).Ok?
    ensures Parse(n) == Ok(LogDefine(name, LevelFromString(level), formatter,
                           ParseAppenders(if apps.Some? then Elements(apps.value) else []).value))
  {
  }

  /** Printing and parsing keeps the name, the level and the formatter, and of the appenders what
      the format has room for. */
  lemma ParseOfPrint(d: LogDefine)
    ensures Parse(Print(d)) == Ok(d.(appenders := AllKept(d.appenders)))
  {
    PrintedLevel(d);
    PrintedFormatter(d);
    PrintedAppenders(d);
    LevelSurvives(d.level);
    AppendersSurvive(d.appenders);
    ParseOfMembers(Print(d), d.name, if d.level == Unknown then "" else LevelToString(d.level), d.formatter,
                   if d.appenders == [] then None else Some(Sequence(PrintAppenders(d.appenders))));
  }

  lemma {:induction false} KeptIsShorter(appenders: seq<AppenderDefine>)
    ensures |AllKept(appenders)| <= |appenders|
  {
    if appenders != [] {
      KeptIsShorter(appenders[..|appenders| - 1]);
    }
  }

  lemma {:induction false} NormalIsKept(appenders: seq<AppenderDefine>)
    requires forall k :: 0 <= k < |appenders| ==> NormalAppender(appenders[k])
    ensures AllKept(appenders) == appenders
  {
    if appenders != [] {
      var last := |appenders| - 1;
      NormalIsKept(appenders[..last]);
      assert appenders == appenders[..last] + [appenders[last]];
    }
  }

  lemma {:induction false} KeptIsNormal(appenders: seq<AppenderDefine>)
    requires AllKept(appenders) == appenders
    ensures forall k :: 0 <= k < |appenders| ==> NormalAppender(appenders[k])
  {
    if appenders != [] {
      var last := |appenders| - 1;
      var before, kept := AllKept(appenders[..last]), Kept(appenders[last]);
      KeptIsShorter(appenders[..last]);
      assert |before| == last;
      assert before == (before + kept)[..last] == appenders[..last];
      assert kept == (before + kept)[last..] == [appenders[last]];
      KeptIsNormal(appenders[..last]);
      assert forall k :: 0 <= k < last ==> appenders[..last][k] == appenders[k];
    }
  }

  /** A definition survives printing and parsing exactly when it is in normal form; the appender
      level is printed but never read back. */
  lemma RoundTripIffNormal(d: LogDefine)
    ensures Parse(Print(d)) == Ok(d) <==> Normal(d)
  {
    ParseOfPrint(d);
    if Normal(d) {
      NormalIsKept(d.appenders);
    }
    if AllKept(d.appenders) == d.appenders {
      KeptIsNormal(d.appenders);
    }
  }

  /** Hence parsing, printing and parsing again is parsing. */
  lemma ParsePrintParse(n: Node)
    requires Parse(n).Ok?
    ensures Parse(Print(Parse(n).value)) == Parse(n)
  {
    ParsedIsNormal(n);
    RoundTripIffNormal(Parse(n).value);
  }
}
