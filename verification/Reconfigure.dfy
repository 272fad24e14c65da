/** Live reconfiguration: the `logs` listener patches loggers from the difference of two values,
    and every sequence of values ends in a state that can be read off the values alone. */
module Reconfigure {
  import opened Wrappers
  import opened Pattern
  import opened Formatter
  import opened LogTypes
  import opened Loggers

  // ------------------------------------------------------------- what one patch means

  /** A non-empty pattern that compiles replaces the current one. */
  function Resolve(current: string, wanted: string): string {
    if wanted != "" && Accepts(wanted) then wanted else current
  }

  function MakeAppender(a: AppenderDefine, f: string): AppenderView {
    AppenderView(if a.typ == 1 then Some(a.file) else None, a.level, Some(Resolve(f, a.formatter)),
                 a.formatter != "" && Accepts(a.formatter))
  }

  /** The appenders of known type, in order. */
  function MakeAppenders(defs: seq<AppenderDefine>, f: string): seq<AppenderView> {
    if defs == [] then []
    else
      var a := defs[|defs| - 1];
      MakeAppenders(defs[..|defs| - 1], f) + if a.typ == 1 || a.typ == 2 then [MakeAppender(a, f)] else []
  }

  /** The appender a definition asks for on a logger whose pattern is `f`. */
  predicate Fits(v: AppenderView, a: AppenderDefine, f: string) {
    && v.file == (if a.typ == 1 then Some(a.file) else None) && v.level == a.level
    && v.own == (a.formatter != "" && Accepts(a.formatter))
    && v.formatter == Some(if v.own then a.formatter else f)
  }

  predicate Known(a: AppenderDefine) {
    a.typ == 1 || a.typ == 2
  }

  /** `idx` lists the positions of the definitions of known type, in order. */
  predicate Selects(idx: seq<nat>, defs: seq<AppenderDefine>) {
    && (forall j, k :: 0 <= j < k < |idx| ==> idx[j] < idx[k])
    && (forall k :: 0 <= k < |idx| ==> idx[k] < |defs| && Known(defs[idx[k]]))
    && (forall i :: 0 <= i < |defs| && Known(defs[i]) ==> i in idx)
  }

  ghost predicate FitSelected(views: seq<AppenderView>, defs: seq<AppenderDefine>, f: string, idx: seq<nat>) {
    Selects(idx, defs) && |idx| == |views| && forall k :: 0 <= k < |idx| ==> Fits(views[k], defs[idx[k]], f)
  }

  /** The appenders of the definitions of known type, in order, and no others. */
  ghost predicate FitAll(views: seq<AppenderView>, defs: seq<AppenderDefine>, f: string) {
    && (exists idx :: FitSelected(views, defs, f, idx))
    && ((forall k :: 0 <= k < |defs| ==> Known(defs[k])) ==>
         |views| == |defs| && forall k :: 0 <= k < |defs| ==> Fits(views[k], defs[k], f))
  }

  lemma SelectsMore(defs: seq<AppenderDefine>, before: seq<nat>)
    requires defs != [] && Selects(before, defs[..|defs| - 1])
    ensures var last := |defs| - 1;
            Selects(before + if Known(defs[last]) then [last] else [], defs)
  {
    var last := |defs| - 1;
    var idx := before + if Known(defs[last]) then [last] else [];
    forall k | 0 <= k < |before| ensures before[k] < last && Known(defs[before[k]]) {
      assert defs[..last][before[k]] == defs[before[k]];
    }
    forall i | 0 <= i < |defs| && Known(defs[i]) ensures i in idx {
      if i < last {
        assert defs[..last][i] == defs[i];
        assert i in before;
      } else {
        assert idx[|before|] == last;
      }
    }
  }

  lemma MakeFits(a: AppenderDefine, f: string)
    ensures Fits(MakeAppender(a, f), a, f)
  {
  }

  lemma MadeMore(defs: seq<AppenderDefine>, f: string)
    requires defs != []
    ensures var last := |defs| - 1;
            MakeAppenders(defs, f)
            == MakeAppenders(defs[..last], f) + if Known(defs[last]) then [MakeAppender(defs[last], f)] else []
  {
  }

  lemma OlderFit(views: seq<AppenderView>, defs: seq<AppenderDefine>, f: string, before: seq<nat>, k: nat)
    requires defs != [] && FitSelected(views, defs[..|defs| - 1], f, before) && k < |before|
    ensures before[k] < |defs| && Fits(views[k], defs[before[k]], f)
  {
    assert defs[..|defs| - 1][before[k]] == defs[before[k]];
  }

  /** One more definition: the views before it still fit, and so does the new one. */
  lemma FitsMore(views: seq<AppenderView>, defs: seq<AppenderDefine>, f: string, before: seq<nat>)
    requires defs != [] && FitSelected(views, defs[..|defs| - 1], f, before)
    ensures var d := defs[|defs| - 1];
            FitSelected(views + if Known(d) then [MakeAppender(d, f)] else [], defs, f,
                        before + if Known(d) then [|defs| - 1] else [])
  {
    var last := |defs| - 1;
    SelectsMore(defs, before);
    MakeFits(defs[last], f);
    forall k | 0 <= k < |before| ensures Fits(views[k], defs[before[k]], f) {
      OlderFit(views, defs, f, before, k);
    }
  }

  lemma {:induction false} MadeAreSelected(defs: seq<AppenderDefine>, f: string) returns (idx: seq<nat>)
    ensures FitSelected(MakeAppenders(defs, f), defs, f, idx)
  {
    idx := [];
    if defs != [] {
      var last := |defs| - 1;
      var before := MadeAreSelected(defs[..last], f);
      FitsMore(MakeAppenders(defs[..last], f), defs, f, before);
      MadeMore(defs, f);
      idx := before + if Known(defs[last]) then [last] else [];
    }
  }

  lemma {:induction false} KnownAreMade(defs: seq<AppenderDefine>, f: string)
    requires forall k :: 0 <= k < |defs| ==> Known(defs[k])
    ensures |MakeAppenders(defs, f)| == |defs|
    ensures forall k :: 0 <= k < |defs| ==> Fits(MakeAppenders(defs, f)[k], defs[k], f)
  {
    if defs != [] {
      KnownAreMade(defs[..|defs| - 1], f);
    }
  }

  /** In full: one appender for each definition of type 1 or 2, in order, with its file if it is of
      type 1, its level, and its own pattern if that is non-empty and valid, else the logger's. */
  lemma MadeInOrder(defs: seq<AppenderDefine>, f: string) returns (idx: seq<nat>)
    ensures |idx| == |MakeAppenders(defs, f)| && forall j, k :: 0 <= j < k < |idx| ==> idx[j] < idx[k]
    ensures forall i: nat :: i in idx <==> i < |defs| && (defs[i].typ == 1 || defs[i].typ == 2)
    ensures forall k :: 0 <= k < |idx| ==> idx[k] < |defs|
    ensures forall k :: 0 <= k < |idx| ==>
              var v, a := MakeAppenders(defs, f)[k], defs[idx[k]];
              var own := a.formatter != "" && Accepts(a.formatter);
              v == AppenderView(if a.typ == 1 then Some(a.file) else None, a.level,
                                Some(if own then a.formatter else f), own)
  {
    idx := MadeAreSelected(defs, f);
    forall i: nat | i in idx ensures i < |defs| && (defs[i].typ == 1 || defs[i].typ == 2) {
      var k :| 0 <= k < |idx| && idx[k] == i;
      assert Known(defs[idx[k]]);
    }
    forall i: nat | i < |defs| && (defs[i].typ == 1 || defs[i].typ == 2) ensures i in idx {
      assert Known(defs[i]);
    }
  }

  lemma MadeFit(defs: seq<AppenderDefine>, f: string)
    ensures FitAll(MakeAppenders(defs, f), defs, f)
  {
    var idx := MadeAreSelected(defs, f);
    if forall k :: 0 <= k < |defs| ==> Known(defs[k]) {
      KnownAreMade(defs, f);
    }
  }

  function Patched(v: LoggerView, d: LogDefine): LoggerView {
    var f := Resolve(v.formatter, d.formatter);
    LoggerView(d.level, f, MakeAppenders(d.appenders, f))
  }

  function Disabled(v: LoggerView): LoggerView {
    v.(level := Unknown, appenders := [])
  }

  /** What a change from `before` to `after` does to the logger called `n`. */
  function Changed(v: LoggerView, n: string, before: Defines, after: Defines): LoggerView {
    if n in after then
      if n in before && after[n] == before[n] then v else Patched(v, after[n])
    else if n in before then Disabled(v)
    else v
  }

  /** The same change in two stages: definitions present are applied, then those gone dropped. */
  function Applied(v: LoggerView, n: string, before: Defines, after: Defines): LoggerView {
    if n in after && !(n in before && after[n] == before[n]) then Patched(v, after[n]) else v
  }

  function Dropped(v: LoggerView, n: string, before: Defines, after: Defines): LoggerView {
    if n in before && n !in after then Disabled(v) else v
  }

  // ------------------------------------------------------------------- the listener

  /** The appender a definition of known type asks for; an invalid formatter is dropped. */
  method NewAppender(a: AppenderDefine) returns (ap: LogAppender)
    ensures fresh(ap) && ap.m_filename == (if a.typ == 1 then Some(a.file) else None) && ap.m_level == a.level
    ensures ap.m_hasFormatter <==> a.formatter != "" && Accepts(a.formatter)
    ensures ap.m_formatter != null <==> ap.m_hasFormatter
    ensures ap.m_formatter != null ==> ap.m_formatter.Valid() && ap.m_formatter.m_pattern == a.formatter
  {
    ap := new LogAppender(if a.typ == 1 then Some(a.file) else None);
    ap.SetLevel(a.level);
    if a.formatter != "" {
      var fmt := new LogFormatter(a.formatter);
      var error := fmt.IsError();
      if !error {
        ap.SetFormatter(fmt);
      }
    }
  }

  /** The appender has a formatter with the items of its pattern. */
  ghost predicate Supplied(a: LogAppender)
    reads a, a.m_formatter
  {
    a.m_formatter != null && a.m_formatter.Valid()
  }

  /** The object itself is what the definition asks for on the logger. */
  ghost predicate Asked(ap: LogAppender, a: AppenderDefine, logger: Logger)
    reads ap, logger
  {
    && ap.m_filename == (if a.typ == 1 then Some(a.file) else None) && ap.m_level == a.level
    && ap.m_hasFormatter == (a.formatter != "" && Accepts(a.formatter)) && ap.m_formatter != null
    && ap.m_formatter.m_pattern == if ap.m_hasFormatter then a.formatter else logger.m_formatter.m_pattern
  }

  lemma FitIsAsked(logger: Logger, defs: seq<AppenderDefine>)
    requires FitAll(logger.View().appenders, defs, logger.m_formatter.m_pattern)
    ensures (forall k :: 0 <= k < |defs| ==> Known(defs[k])) ==>
              |logger.m_appenders| == |defs|
              && forall k :: 0 <= k < |defs| ==> Asked(logger.m_appenders[k], defs[k], logger)
  {
    if forall k :: 0 <= k < |defs| ==> Known(defs[k]) {
      forall k | 0 <= k < |defs| ensures Asked(logger.m_appenders[k], defs[k], logger) {
        assert logger.View().appenders[k] == logger.m_appenders[k].View();
        assert Fits(logger.View().appenders[k], defs[k], logger.m_formatter.m_pattern);
      }
    }
  }

  method AddAppenders(logger: Logger, defs: seq<AppenderDefine>)
    requires logger.m_appenders == []
    modifies logger`m_appenders
    ensures forall a :: a in logger.m_appenders ==> fresh(a) && (logger.m_formatter.Valid() ==> Supplied(a))
    ensures logger.View() == old(logger.View()).(appenders := MakeAppenders(defs, logger.m_formatter.m_pattern))
    ensures FitAll(logger.View().appenders, defs, logger.m_formatter.m_pattern)
  {
    var f := logger.m_formatter.m_pattern;
    var k := 0;
    while k < |defs|
      invariant k <= |defs|
      invariant forall a :: a in logger.m_appenders ==> fresh(a) && (logger.m_formatter.Valid() ==> Supplied(a))
      invariant logger.View().appenders == MakeAppenders(defs[..k], f)
    {
      var a := defs[k];
      ghost var was := logger.View().appenders;
      assert defs[..k + 1][..k] == defs[..k];
      k := k + 1;
      if a.typ == 1 || a.typ == 2 {
        var ap := NewAppender(a);
        logger.AddAppender(ap);
        assert ap.View() == MakeAppender(a, f);
        assert logger.View().appenders == was + [ap.View()];
      }
    }
    assert defs[..k] == defs;
    MadeFit(defs, f);
  }

  method PatchLogger(logger: Logger, d: LogDefine)
    modifies logger`m_level, logger`m_formatter, logger`m_appenders, (set a | a in logger.m_appenders)`m_formatter
    ensures old(logger.m_formatter.Valid()) || (d.formatter != "" && Accepts(d.formatter)) ==>
              logger.m_formatter.Valid()
    ensures forall a :: a in logger.m_appenders ==> fresh(a) && (logger.m_formatter.Valid() ==> Supplied(a))
    ensures logger.View() == Patched(old(logger.View()), d)
    ensures logger.m_level == d.level && FitAll(logger.View().appenders, d.appenders, logger.m_formatter.m_pattern)
    ensures logger.m_formatter.m_pattern
         == if d.formatter != "" && Accepts(d.formatter) then d.formatter else old(logger.m_formatter.m_pattern)
    ensures (forall k :: 0 <= k < |d.appenders| ==> d.appenders[k].typ == 1 || d.appenders[k].typ == 2) ==>
              |logger.m_appenders| == |d.appenders|
              && forall k :: 0 <= k < |d.appenders| ==> Asked(logger.m_appenders[k], d.appenders[k], logger)
  {
    logger.SetLevel(d.level);
    if d.formatter != "" {
      logger.SetFormatterString(d.formatter);
    }
    assert logger.m_formatter.m_pattern == logger.View().formatter;
    logger.ClearAppender();
    AddAppenders(logger, d.appenders);
    FitIsAsked(logger, d.appenders);
    assert forall k :: 0 <= k < |d.appenders| ==>
             (Known(d.appenders[k]) <==> d.appenders[k].typ == 1 || d.appenders[k].typ == 2);
  }

  method PatchOwned(mgr: LoggerManager, logger: Logger, d: LogDefine)
    requires mgr.Valid() && d.name in mgr.m_loggers && mgr.m_loggers[d.name] == logger
    modifies mgr.Repr
    ensures mgr.Valid() && fresh(mgr.Repr - old(mgr.Repr))
    ensures mgr.ViewOf(d.name) == Patched(old(mgr.ViewOf(d.name)), d)
    ensures forall n :: n != d.name ==> mgr.ViewOf(n) == old(mgr.ViewOf(n))
  {
    PatchLogger(logger, d);
    assert forall n :: n in mgr.m_loggers && n != d.name ==> mgr.m_loggers[n] != logger;
    mgr.Repr := mgr.Repr + set a | a in logger.m_appenders;
  }

  method PatchNamed(mgr: LoggerManager, d: LogDefine)
    requires mgr.Valid()
    modifies mgr.Repr
    ensures mgr.Valid() && fresh(mgr.Repr - old(mgr.Repr))
    ensures mgr.ViewOf(d.name) == Patched(old(mgr.ViewOf(d.name)), d)
    ensures forall n :: n != d.name ==> mgr.ViewOf(n) == old(mgr.ViewOf(n))
  {
    var logger := mgr.GetLogger(d.name);
    PatchOwned(mgr, logger, d);
  }

  method DisableNamed(mgr: LoggerManager, name: string)
    requires mgr.Valid()
    modifies mgr.Repr
    ensures mgr.Valid() && fresh(mgr.Repr - old(mgr.Repr))
    ensures mgr.ViewOf(name) == Disabled(old(mgr.ViewOf(name)))
    ensures forall n :: n != name ==> mgr.ViewOf(n) == old(mgr.ViewOf(n))
  {
    var logger := mgr.GetLogger(name);
    logger.SetLevel(Unknown);
    logger.ClearAppender();
  }

  /** One round of the listener's first loop: a new or edited definition is applied. */
  method VisitNew(mgr: LoggerManager, i: LogDefine, before: Defines, after: Defines)
    requires mgr.Valid() && i.name in after && after[i.name] == i
    modifies mgr.Repr
    ensures mgr.Valid() && fresh(mgr.Repr - old(mgr.Repr))
    ensures mgr.ViewOf(i.name) == Applied(old(mgr.ViewOf(i.name)), i.name, before, after)
    ensures forall n :: n != i.name ==> mgr.ViewOf(n) == old(mgr.ViewOf(n))
  {
    if i.name !in before {
      PatchNamed(mgr, i);
    } else if i != before[i.name] {
      PatchNamed(mgr, i);
    }
  }

  /** One round of its second loop: a definition that is gone switches its logger off. */
  method VisitOld(mgr: LoggerManager, i: LogDefine, before: Defines, after: Defines)
    requires mgr.Valid() && i.name in before
    modifies mgr.Repr
    ensures mgr.Valid() && fresh(mgr.Repr - old(mgr.Repr))
    ensures mgr.ViewOf(i.name) == Dropped(old(mgr.ViewOf(i.name)), i.name, before, after)
    ensures forall n :: n != i.name ==> mgr.ViewOf(n) == old(mgr.ViewOf(n))
  {
    if i.name !in after {
      DisableNamed(mgr, i.name);
    }
  }

  method VisitAllNew(mgr: LoggerManager, before: Defines, after: Defines)
    requires mgr.Valid()
    modifies mgr.Repr
    ensures mgr.Valid() && fresh(mgr.Repr - old(mgr.Repr))
    ensures forall n :: mgr.ViewOf(n) == Applied(old(mgr.ViewOf(n)), n, before, after)
  {
    var todo := after.Keys;
    while todo != {}
      invariant todo <= after.Keys
      invariant mgr.Valid() && fresh(mgr.Repr - old(mgr.Repr))
      invariant forall n :: n !in todo ==> mgr.ViewOf(n) == Applied(old(mgr.ViewOf(n)), n, before, after)
      invariant forall n :: n in todo ==> mgr.ViewOf(n) == old(mgr.ViewOf(n))
      decreases todo
    {
      var name :| name in todo;
      todo := todo - {name};
      VisitNew(mgr, after[name], before, after);
    }
  }

  method VisitAllOld(mgr: LoggerManager, before: Defines, after: Defines)
    requires mgr.Valid()
    modifies mgr.Repr
    ensures mgr.Valid() && fresh(mgr.Repr - old(mgr.Repr))
    ensures forall n :: mgr.ViewOf(n) == Dropped(old(mgr.ViewOf(n)), n, before, after)
  {
    var todo := before.Keys;
    while todo != {}
      invariant todo <= before.Keys
      invariant mgr.Valid() && fresh(mgr.Repr - old(mgr.Repr))
      invariant forall n :: n !in todo ==> mgr.ViewOf(n) == Dropped(old(mgr.ViewOf(n)), n, before, after)
      invariant forall n :: n in todo ==> mgr.ViewOf(n) == old(mgr.ViewOf(n))
      decreases todo
    {
      var name :| name in todo;
      todo := todo - {name};
      VisitOld(mgr, before[name], before, after);
    }
  }

  /** The listener registered on the `logs` variable. */
  method OnLogsChanged(mgr: LoggerManager, before: Defines, after: Defines)
    requires mgr.Valid()
    modifies mgr.Repr
    ensures mgr.Valid() && fresh(mgr.Repr - old(mgr.Repr))
    ensures forall n :: mgr.ViewOf(n) == Changed(old(mgr.ViewOf(n)), n, before, after)
  {
    VisitAllNew(mgr, before, after);
    VisitAllOld(mgr, before, after);
  }

  // -------------------------------------------------------- sequences of configurations

  /** Loggers before any configuration: only the root exists, with one standard output. */
  function Initial(n: string): LoggerView {
    if n == "root" then FRESH_ROOT else FRESH_LOGGER
  }

  /** The last non-empty pattern without error that any value gave to `n`, else `start`. */
  function LastFormatter(start: string, n: string, history: seq<Defines>): string {
    if history == [] then start
    else
      var last := history[|history| - 1];
      if n in last && last[n].formatter != "" && Accepts(last[n].formatter) then last[n].formatter
      else LastFormatter(start, n, history[..|history| - 1])
  }

  predicate EverDefined(n: string, history: seq<Defines>) {
    exists k :: 0 <= k < |history| && n in history[k]
  }

  /** The state the values alone call for, with no reference to the order of patches. */
  function Target(n: string, history: seq<Defines>): LoggerView
    requires history != []
  {
    var last := history[|history| - 1];
    var f := LastFormatter(Initial(n).formatter, n, history);
    if n in last then LoggerView(last[n].level, f, MakeAppenders(last[n].appenders, f))
    else if EverDefined(n, history) then LoggerView(Unknown, f, [])
    else Initial(n)
  }

  /** One more value takes the target of the old history to the target of the new one. */
  lemma TargetStep(n: string, history: seq<Defines>, after: Defines)
    requires history != []
    ensures Target(n, history + [after])
         == Changed(Target(n, history), n, history[|history| - 1], after)
  {
    var longer := history + [after];
    assert longer[..|history|] == history;
    assert forall k :: 0 <= k < |history| ==> longer[k] == history[k];
    assert longer[|history|] == after;
    if !EverDefined(n, history) {
      NeverDefined(n, history);
    }
  }

  /** The value gives `n` a pattern that takes effect. */
  predicate Gives(d: Defines, n: string) {
    n in d && d[n].formatter != "" && Accepts(d[n].formatter)
  }

  lemma {:induction false} LastGiven(start: string, n: string, history: seq<Defines>, k: nat)
    requires forall j :: k <= j < |history| ==> !Gives(history[j], n)
    requires k <= |history| && (k > 0 ==> Gives(history[k - 1], n))
    ensures LastFormatter(start, n, history) == if k == 0 then start else history[k - 1][n].formatter
  {
    if k < |history| {
      LastGiven(start, n, history[..|history| - 1], k);
    }
  }

  /** What the target is, case by case: a name that is defined, one that no longer is, one that never
      was; and the pattern given last, by the first `k` values, or the default. */
  lemma TargetMeans(n: string, history: seq<Defines>, k: nat)
    requires history != [] && k <= |history|
    requires forall j :: k <= j < |history| ==> !Gives(history[j], n)
    requires k > 0 ==> Gives(history[k - 1], n)
    ensures var v, last := Target(n, history), history[|history| - 1];
            && (n in last ==> v.level == last[n].level && FitAll(v.appenders, last[n].appenders, v.formatter))
            && (n !in last && (exists j :: 0 <= j < |history| && n in history[j]) ==>
                 v.level == Unknown && v.appenders == [])
            && ((forall j :: 0 <= j < |history| ==> n !in history[j]) ==> v == Initial(n))
            && v.formatter == if k == 0 then DEFAULT_PATTERN else history[k - 1][n].formatter
  {
    var last := history[|history| - 1];
    LastGiven(DEFAULT_PATTERN, n, history, k);
    if n in last {
      MadeFit(last[n].appenders, Target(n, history).formatter);
    } else if !EverDefined(n, history) {
      NeverDefined(n, history);
    }
  }

  lemma {:induction false} NeverDefined(n: string, history: seq<Defines>)
    requires !EverDefined(n, history)
    ensures LastFormatter(Initial(n).formatter, n, history) == Initial(n).formatter
  {
    if history != [] {
      var last := |history| - 1;
      assert n !in history[last];
      NeverDefined(n, history[..last]);
    }
  }

  lemma TargetsStep(history: seq<Defines>, after: Defines)
    requires history != []
    ensures forall n :: Target(n, history + [after]) == Changed(Target(n, history), n, history[|history| - 1], after)
  {
    forall n ensures Target(n, history + [after]) == Changed(Target(n, history), n, history[|history| - 1], after) {
      TargetStep(n, history, after);
    }
  }

  lemma TargetsMean(history: seq<Defines>)
    requires history != []
    ensures var last := history[|history| - 1];
            && (forall n :: n in last ==>
                 var v := Target(n, history);
                 v.level == last[n].level && FitAll(v.appenders, last[n].appenders, v.formatter))
            && (forall n, j :: n !in last && 0 <= j < |history| && n in history[j] ==>
                 Target(n, history).level == Unknown && Target(n, history).appenders == [])
  {
    var last := history[|history| - 1];
    forall n | n in last ensures FitAll(Target(n, history).appenders, last[n].appenders, Target(n, history).formatter) {
      MadeFit(last[n].appenders, Target(n, history).formatter);
    }
  }

  /** The `logs` variable with its listener, acting on a manager nobody else changes. */
  class LogsVar {
    const mgr: LoggerManager
    var m_val: Defines
    /** Every value the variable has had, oldest first. */
    ghost var history: seq<Defines>

    ghost predicate Valid()
      reads this, mgr, mgr.Repr
    {
      && mgr.Valid() && this !in mgr.Repr
      && history != [] && m_val == history[|history| - 1]
      && forall n :: mgr.ViewOf(n) == Target(n, history)
    }

    constructor ()
      ensures Valid() && fresh(mgr) && fresh(mgr.Repr) && history == [map[]]
    {
      mgr := new LoggerManager();
      m_val := map[];
      history := [map[]];
    }

    method SetValue(v: Defines)
      requires Valid()
      modifies this, mgr, mgr.Repr
      ensures Valid() && fresh(mgr.Repr - old(mgr.Repr)) && m_val == v
      ensures history == if v == old(m_val) then old(history) else old(history) + [v]
      ensures forall n :: n in v ==>
                var l := mgr.ViewOf(n); l.level == v[n].level && FitAll(l.appenders, v[n].appenders, l.formatter)
      ensures forall n, j :: n !in v && 0 <= j < |history| && n in history[j] ==>
                mgr.ViewOf(n).level == Unknown && mgr.ViewOf(n).appenders == []
    {
      if v == m_val {
        TargetsMean(history);
        return;
      }
      TargetsStep(history, v);
      OnLogsChanged(mgr, m_val, v);
      m_val := v;
      history := history + [v];
      TargetsMean(history);
    }
  }
}
