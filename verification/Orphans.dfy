/**
 The other direction of coverage: when a position the bot tracks is one the trader no longer holds, and no goroutine
 is going to remove it.
 */
module Orphans {
  import opened Decimals
  import opened Types
  import opened TraderDiff
  import opened Orders
  import opened Decisions
  import opened BotRuntime
  import opened BotStartup
  import opened Coverage

  function Hash(k: Key, inverse: bool): string { PosHash(k.0, EffectiveSide(k.1, inverse)) }

  predicate Held(view: map<Key, real>, inverse: bool, hash: string) { exists k :: k in view && Hash(k, inverse) == hash }

  /** Every tracked position is one the trader holds, or has its removal outstanding. */
  predicate NoOrphans(s: System, inverse: bool) {
    forall h :: h in s.bot.positions ==> Held(s.view, inverse, h) || h in s.bot.pendingDeletes
  }

  /** What a CLOSE needs to go out and remove the position under the key it was found at. */
  predicate ClosesOut(bot: BotState, u: Update, inverse: bool, a: CloseAnswer) {
    var hash := Hash(KeyOfUpdate(u), inverse);
    && u.symbol !in bot.ignoreList && a.config.Some? && !a.config.value.modeNoClose && a.sym.Known()
    && hash in bot.positions
    && var pos := bot.positions[hash];
       pos.qty >= 0.0 && BulkQtyList(pos.qty, a.sym) != [] && PosHash(pos.symbol, pos.side) == hash
  }

  /** A CLOSE of a tracked position goes out, unless one that did is still to remove it. */
  predicate Tidy(s: System, inverse: bool, e: Event)
    requires Enabled(s, inverse, e)
  {
    var closes := e.DoClose? || (e.Panics? && s.queue[0].kind == CloseLS);
    closes ==>
      var hash := Hash(KeyOfUpdate(s.queue[0]), inverse);
      hash in s.bot.positions ==> hash in s.bot.pendingDeletes || (e.DoClose? && ClosesOut(s.bot, s.queue[0], inverse, e.close))
  }

  lemma CloseRemoves(bot: BotState, u: Update, inverse: bool, a: CloseAnswer)
    requires SameMode(a.config, inverse)
    ensures var hash, next := Hash(KeyOfUpdate(u), inverse), DispatchClose(bot, u, a);
      && next.positions == bot.positions
      && (forall h :: h in bot.pendingDeletes ==> h in next.pendingDeletes)
      && (hash in bot.positions ==> (hash in next.pendingDeletes <==> hash in bot.pendingDeletes || ClosesOut(bot, u, inverse, a)))
  {
    hide PosHash, BulkQtyList, SymbolInfo.Known, EffectiveSide;
  }

  /** After the dispatch of a CLOSE its key is the only one gone from the book. */
  lemma ClosedView(s: System, inverse: bool, h: string)
    requires InStep(s.snapshot, s.queue, s.view) && s.queue != [] && s.queue[0].kind == CloseLS
    ensures var u := s.queue[0];
      Held(Apply(s.view, u), inverse, h) <==> Held(s.view, inverse, h) && h != Hash(KeyOfUpdate(u), inverse)
  {
    var u := s.queue[0];
    ViewStep(s.snapshot, s.queue, s.view);
    TradeSides(s);
    hide InStep, PosHash, EffectiveSide;
    forall k | k in s.view ensures Hash(k, inverse) == Hash(KeyOfUpdate(u), inverse) <==> k == KeyOfUpdate(u) {
      KeysDiffer(k, KeyOfUpdate(u), inverse);
    }
    if Held(s.view, inverse, h) && h != Hash(KeyOfUpdate(u), inverse) {
      var k :| k in s.view && Hash(k, inverse) == h;
      assert k in Apply(s.view, u);
    }
  }

  lemma CloseStepTidy(s: System, inverse: bool, a: CloseAnswer)
    requires InStep(s.snapshot, s.queue, s.view) && Enabled(s, inverse, DoClose(a)) && NoOrphans(s, inverse)
    ensures NoOrphans(Effect(s, inverse, DoClose(a)), inverse) <==> Tidy(s, inverse, DoClose(a))
  {
    CloseRemoves(s.bot, s.queue[0], inverse, a);
    hide InStep, PosHash, ClosesOut, DispatchClose, Held, Apply, Hash;
    forall h ensures Held(Apply(s.view, s.queue[0]), inverse, h)
      <==> Held(s.view, inverse, h) && h != Hash(KeyOfUpdate(s.queue[0]), inverse)
    {
      ClosedView(s, inverse, h);
    }
  }

  lemma PanicStepTidy(s: System, inverse: bool)
    requires InStep(s.snapshot, s.queue, s.view) && s.queue != [] && NoOrphans(s, inverse)
    ensures NoOrphans(Effect(s, inverse, Panics), inverse) <==> Tidy(s, inverse, Panics)
  {
    var u := s.queue[0];
    if u.kind == CloseLS {
      hide InStep, PosHash, Held, Apply, Hash;
      forall h ensures Held(Apply(s.view, u), inverse, h) <==> Held(s.view, inverse, h) && h != Hash(KeyOfUpdate(u), inverse) {
        ClosedView(s, inverse, h);
      }
    } else {
      hide InStep, PosHash, EffectiveSide;
      HeldGrows(s.view, u, inverse);
    }
  }

  lemma HeldGrows(view: map<Key, real>, u: Update, inverse: bool)
    requires u.kind != CloseLS
    ensures forall h :: Held(view, inverse, h) ==> Held(Apply(view, u), inverse, h)
    ensures Held(Apply(view, u), inverse, Hash(KeyOfUpdate(u), inverse))
  {
    hide PosHash, EffectiveSide;
    forall h | Held(view, inverse, h) ensures Held(Apply(view, u), inverse, h) {
      var k :| k in view && Hash(k, inverse) == h;
      assert k in Apply(view, u);
    }
    assert KeyOfUpdate(u) in Apply(view, u);
  }

  lemma OpenTidy(s: System, inverse: bool, a: Option<OpenAnswer>)
    requires Enabled(s, inverse, DoOpen(a)) && NoOrphans(s, inverse)
    ensures NoOrphans(Effect(s, inverse, DoOpen(a)), inverse)
  {
    hide DispatchOpen, OpenPosition, OpenAnswer.Sane, PosHash, EffectiveSide, Held, Apply;
    HeldGrows(s.view, s.queue[0], inverse);
    OpenShape(s.bot, s.queue[0], inverse, a);
  }

  lemma ChangeTidy(s: System, inverse: bool, a: Option<ChangeAnswer>)
    requires Enabled(s, inverse, DoChange(a)) && NoOrphans(s, inverse)
    ensures NoOrphans(Effect(s, inverse, DoChange(a)), inverse)
  {
    hide DispatchChange, ChangeAnswer.Sane, PosHash, EffectiveSide, Held, Apply;
    HeldGrows(s.view, s.queue[0], inverse);
    if a.Some? { ChangeShape(s.bot, s.queue[0], inverse, a.value); }
  }

  lemma LaterStepTidy(s: System, inverse: bool, e: Event)
    requires Enabled(s, inverse, e) && NoOrphans(s, inverse) && (e.DeleteDone? || e.IgnoreDone? || e.Manual? || e.Poll?)
    ensures NoOrphans(Effect(s, inverse, e), inverse)
  {
    hide Held, SymbolsAt, Compare;
  }

  /** A step leaves no orphan exactly when it is no CLOSE of a tracked position that fails to go out: one of an ignored
      symbol, which is only un-ignored, one refused, one that fails, or one that panics. */
  lemma StepTidyIff(s: System, inverse: bool, e: Event)
    requires InStep(s.snapshot, s.queue, s.view) && Enabled(s, inverse, e) && NoOrphans(s, inverse)
    ensures NoOrphans(Effect(s, inverse, e), inverse) <==> Tidy(s, inverse, e)
  {
    hide InStep, NoOrphans, Effect;
    match e {
      case DoOpen(a) => OpenTidy(s, inverse, a);
      case DoChange(a) => ChangeTidy(s, inverse, a);
      case DoClose(a) => CloseStepTidy(s, inverse, a);
      case Panics => PanicStepTidy(s, inverse);
      case _ => LaterStepTidy(s, inverse, e);
    }
  }

  ghost predicate AllTidy(s: System, inverse: bool, events: seq<Event>)
    requires Runs(s, inverse, events)
    decreases events
  {
    events == [] || (Tidy(s, inverse, events[0]) && AllTidy(Effect(s, inverse, events[0]), inverse, events[1..]))
  }

  lemma StepInStep(s: System, inverse: bool, e: Event)
    requires InStep(s.snapshot, s.queue, s.view) && Enabled(s, inverse, e)
    ensures var next := Effect(s, inverse, e); InStep(next.snapshot, next.queue, next.view)
  {
    hide InStep, DispatchOpen, DispatchClose, DispatchChange, ManualCheck, Apply, Multiple;
    if e.Poll? {
      if e.answer.Some? { PollStep(s.snapshot, s.view, e.answer.value); }
    } else if e.DoOpen? || e.DoClose? || e.DoChange? || e.Panics? {
      ViewStep(s.snapshot, s.queue, s.view);
    }
  }

  lemma {:induction false} TidyRun(s: System, inverse: bool, events: seq<Event>)
    requires InStep(s.snapshot, s.queue, s.view) && NoOrphans(s, inverse) && Runs(s, inverse, events) && AllTidy(s, inverse, events)
    ensures NoOrphans(Final(s, inverse, events), inverse)
    decreases events
  {
    hide InStep, NoOrphans, Effect, Enabled, Tidy;
    if events != [] {
      StepTidyIff(s, inverse, events[0]);
      StepInStep(s, inverse, events[0]);
      TidyRun(Effect(s, inverse, events[0]), inverse, events[1..]);
    }
  }

  lemma StartTidy(s: System, inverse: bool, user: map<string, BotPosition>)
    requires StartsRun(s, inverse, user)
    ensures InStep(s.snapshot, s.queue, s.view) && NoOrphans(s, inverse)
  {
    OnePerSymbolBook(s.snapshot);
    hide OnePerSymbol, OneSymbol, PosHash, EffectiveSide;
    forall h | h in s.bot.positions ensures Held(s.view, inverse, h) {
      assert TraderHolds(s.snapshot, inverse, h);
      var i :| 0 <= i < |s.snapshot| && OurHash(s.snapshot[i], inverse) == h;
      assert s.snapshot[i] in s.snapshot;
      assert KeyOf(s.snapshot[i]) in s.view && Hash(KeyOf(s.snapshot[i]), inverse) == h;
    }
  }

  /** From a regular start, over every run of tidy steps, whatever else the answers and delays, the bot tracks only
      what the trader holds or what is about to be removed. */
  lemma RunTracksOnlyHeld(s: System, inverse: bool, user: map<string, BotPosition>, events: seq<Event>)
    requires StartsRun(s, inverse, user) && Runs(s, inverse, events) && AllTidy(s, inverse, events)
    ensures NoOrphans(Final(s, inverse, events), inverse)
  {
    hide InStep, Runs, AllTidy, Final, StartsRun, Held;
    StartTidy(s, inverse, user);
    TidyRun(s, inverse, events);
  }
}
