/**
 botStartup.go: what a starting bot does with the positions it and the trader already have open.
 */
module BotStartup {
  import opened Types
  import opened BotRuntime

  function OurHash(t: TraderPosition, inverse: bool): string {
    PosHash(t.symbol, EffectiveSide(t.side, inverse))
  }

  predicate TraderHolds(traders: seq<TraderPosition>, inverse: bool, hash: string) {
    exists i :: 0 <= i < |traders| && OurHash(traders[i], inverse) == hash
  }

  predicate TraderHasSymbol(traders: seq<TraderPosition>, symbol: string) {
    exists i :: 0 <= i < |traders| && traders[i].symbol == symbol
  }

  /** Trader open, user closed. */
  predicate Unjoined(traders: seq<TraderPosition>, inverse: bool, user: map<string, BotPosition>, symbol: string) {
    exists i :: 0 <= i < |traders| && traders[i].symbol == symbol && OurHash(traders[i], inverse) !in user
  }

  /** Trader closed, user open. */
  predicate UserOnly(traders: seq<TraderPosition>, user: map<string, BotPosition>, hashes: set<string>, symbol: string) {
    !TraderHasSymbol(traders, symbol) && exists h :: h in hashes && h in user && user[h].symbol == symbol
  }

  function Joined(traders: seq<TraderPosition>, inverse: bool, user: map<string, BotPosition>): map<string, BotPosition> {
    map h | h in user && TraderHolds(traders, inverse, h) :: user[h]
  }

  lemma JoinedNext(traders: seq<TraderPosition>, i: nat, inverse: bool, user: map<string, BotPosition>)
    requires i < |traders|
    ensures var h := OurHash(traders[i], inverse);
      Joined(traders[..i + 1], inverse, user) ==
        if h in user then Joined(traders[..i], inverse, user)[h := user[h]] else Joined(traders[..i], inverse, user)
    ensures forall s :: Unjoined(traders[..i + 1], inverse, user, s) <==>
      Unjoined(traders[..i], inverse, user, s) || (s == traders[i].symbol && OurHash(traders[i], inverse) !in user)
  {
    var next, now := traders[..i + 1], traders[..i];
    assert next == now + [traders[i]];
    forall h ensures TraderHolds(next, inverse, h) <==> TraderHolds(now, inverse, h) || h == OurHash(traders[i], inverse) {
      if TraderHolds(now, inverse, h) {
        var j :| 0 <= j < |now| && OurHash(now[j], inverse) == h;
        assert next[j] == now[j];
      }
      assert next[i] == traders[i];
    }
    forall s ensures Unjoined(next, inverse, user, s) <==>
      Unjoined(now, inverse, user, s) || (s == traders[i].symbol && OurHash(traders[i], inverse) !in user)
    {
      if Unjoined(now, inverse, user, s) {
        var j :| 0 <= j < |now| && now[j].symbol == s && OurHash(now[j], inverse) !in user;
        assert next[j] == now[j];
      }
      assert next[i] == traders[i];
    }
  }

  /** Join what both have open, ignore every symbol only one of them has open. `fetched` is the user's positions,
      None when the exchange failed to report them. The second loop visits a map, in no particular order. */
  method HandleTraderBotDifferences(bot: Bot, traders: seq<TraderPosition>, inverse: bool, fetched: Option<map<string, BotPosition>>)
    returns (ok: bool)
    modifies bot`Positions, bot`IgnoreList
    ensures ok == fetched.Some?
    ensures !ok ==> bot.State() == old(bot.State())
    ensures ok ==> bot.Positions == old(bot.Positions) + Joined(traders, inverse, fetched.value)
    ensures ok ==> forall s :: s in bot.IgnoreList <==>
      s in old(bot.IgnoreList) || Unjoined(traders, inverse, fetched.value, s) || UserOnly(traders, fetched.value, fetched.value.Keys, s)
    ensures NoDuplicates(old(bot.IgnoreList)) ==> NoDuplicates(bot.IgnoreList)
  {
    if fetched.None? {
      return false;
    }
    JoinTraders(bot, traders, inverse, fetched.value);
    IgnoreUserOnly(bot, traders, fetched.value);
    return true;
  }

  /** The first loop. */
  method JoinTraders(bot: Bot, traders: seq<TraderPosition>, inverse: bool, user: map<string, BotPosition>)
    modifies bot`Positions, bot`IgnoreList
    ensures bot.Positions == old(bot.Positions) + Joined(traders, inverse, user)
    ensures forall s :: s in bot.IgnoreList <==> s in old(bot.IgnoreList) || Unjoined(traders, inverse, user, s)
    ensures NoDuplicates(old(bot.IgnoreList)) ==> NoDuplicates(bot.IgnoreList)
  {
    hide Joined, Unjoined, OurHash;
    JoinedNone(inverse, user);
    assert traders[..0] == [];
    for i := 0 to |traders|
      invariant bot.Positions == old(bot.Positions) + Joined(traders[..i], inverse, user)
      invariant forall s :: s in bot.IgnoreList <==> s in old(bot.IgnoreList) || Unjoined(traders[..i], inverse, user, s)
      invariant NoDuplicates(old(bot.IgnoreList)) ==> NoDuplicates(bot.IgnoreList)
    {
      JoinedNext(traders, i, inverse, user);
      var posHash := OurHash(traders[i], inverse);
      if posHash !in user {
        bot.Ignore(traders[i].symbol);
      } else {
        bot.Positions := bot.Positions[posHash := user[posHash]];
      }
    }
    assert traders[..|traders|] == traders;
  }

  lemma JoinedNone(inverse: bool, user: map<string, BotPosition>)
    ensures Joined([], inverse, user) == map[]
    ensures forall s :: !Unjoined([], inverse, user, s)
  {
  }

  /** The second loop. */
  method IgnoreUserOnly(bot: Bot, traders: seq<TraderPosition>, user: map<string, BotPosition>)
    modifies bot`IgnoreList
    ensures forall s :: s in bot.IgnoreList <==> s in old(bot.IgnoreList) || UserOnly(traders, user, user.Keys, s)
    ensures NoDuplicates(old(bot.IgnoreList)) ==> NoDuplicates(bot.IgnoreList)
  {
    var todo := user.Keys;
    while todo != {}
      invariant todo <= user.Keys
      invariant forall s :: s in bot.IgnoreList <==> s in old(bot.IgnoreList) || UserOnly(traders, user, user.Keys - todo, s)
      invariant NoDuplicates(old(bot.IgnoreList)) ==> NoDuplicates(bot.IgnoreList)
      decreases todo
    {
      var h :| h in todo;
      var traderHasOpen := HasSymbol(traders, user[h].symbol);
      if !traderHasOpen {
        bot.Ignore(user[h].symbol);
      }
      todo := todo - {h};
      assert user.Keys - todo == (user.Keys - (todo + {h})) + {h};
    }
    assert user.Keys - todo == user.Keys;
  }

  method HasSymbol(traders: seq<TraderPosition>, symbol: string) returns (found: bool)
    ensures found <==> TraderHasSymbol(traders, symbol)
  {
    for i := 0 to |traders|
      invariant !TraderHasSymbol(traders[..i], symbol)
      invariant forall j :: 0 <= j < i ==> traders[j].symbol != symbol
    {
      if traders[i].symbol == symbol {
        return true;
      }
    }
    return false;
  }

  predicate OnePerSymbol(traders: seq<TraderPosition>) {
    && (forall i, j :: 0 <= i < j < |traders| ==> traders[i].symbol != traders[j].symbol)
    && forall t :: t in traders ==> IsTradeSide(t.side)
  }

  /** The exchange reports positions under their own key, each with a side. */
  predicate KeyedByHash(user: map<string, BotPosition>) {
    forall h :: h in user ==> IsTradeSide(user[h].side) && h == PosHash(user[h].symbol, user[h].side)
  }

  /** What the start leaves an empty bot with. */
  ghost predicate Started(traders: seq<TraderPosition>, inverse: bool, user: map<string, BotPosition>, bot: BotState) {
    && bot.positions == Joined(traders, inverse, user)
    && (forall s :: s in bot.ignoreList <==> Unjoined(traders, inverse, user, s) || UserOnly(traders, user, user.Keys, s))
    && NoDuplicates(bot.ignoreList)
    && bot.pendingDeletes == multiset{} && bot.pendingIgnores == multiset{}
  }

  /** From an empty bot: the contract above, in one predicate. */
  method StartBot(traders: seq<TraderPosition>, inverse: bool, user: map<string, BotPosition>, initialBalance: real) returns (bot: Bot)
    ensures fresh(bot) && Started(traders, inverse, user, bot.State())
  {
    bot := new Bot(initialBalance);
    var _ := HandleTraderBotDifferences(bot, traders, inverse, Some(user));
    assert map[] + Joined(traders, inverse, user) == Joined(traders, inverse, user);
  }

  predicate Tracked(bot: BotState, symbol: string) {
    exists h :: h in bot.positions && bot.positions[h].symbol == symbol
  }

  predicate OpenAnywhere(traders: seq<TraderPosition>, user: map<string, BotPosition>, symbol: string) {
    TraderHasSymbol(traders, symbol) || exists h :: h in user && user[h].symbol == symbol
  }

  /** Every symbol open at either party is either tracked or ignored, and not both; no other symbol is either. */
  lemma StartupPartition(traders: seq<TraderPosition>, inverse: bool, user: map<string, BotPosition>, bot: BotState, symbol: string)
    requires OnePerSymbol(traders) && KeyedByHash(user) && Started(traders, inverse, user, bot)
    ensures OpenAnywhere(traders, user, symbol) <==> Tracked(bot, symbol) || symbol in bot.ignoreList
    ensures !(Tracked(bot, symbol) && symbol in bot.ignoreList)
    ensures Tracked(bot, symbol) <==>
      exists i :: 0 <= i < |traders| && traders[i].symbol == symbol && OurHash(traders[i], inverse) in user
  {
    TrackedIffJoined(traders, inverse, user, bot, symbol);
    hide Tracked;
    if i :| 0 <= i < |traders| && traders[i].symbol == symbol {
      OnlyIndex(traders, inverse, user, i);
      if OurHash(traders[i], inverse) in user { JoinedSymbol(traders, inverse, user, i); }
    }
  }

  /** The user's positions that are tracked are those on the bot's side of a position of the trader in the same symbol. */
  lemma JoinedExactly(traders: seq<TraderPosition>, inverse: bool, user: map<string, BotPosition>, bot: BotState, h: string)
    requires OnePerSymbol(traders) && KeyedByHash(user) && Started(traders, inverse, user, bot)
    ensures h in bot.positions ==> h in user && bot.positions[h] == user[h]
    ensures h in user ==>
      (h in bot.positions <==>
        exists i :: 0 <= i < |traders| && traders[i].symbol == user[h].symbol
          && user[h].side == if inverse then SwitchSide(traders[i].side) else traders[i].side)
  {
    if h in user {
      forall i | 0 <= i < |traders|
        ensures OurHash(traders[i], inverse) == h <==>
          traders[i].symbol == user[h].symbol && user[h].side == if inverse then SwitchSide(traders[i].side) else traders[i].side
      {
        assert traders[i] in traders;
        PosHashInjective(traders[i].symbol, EffectiveSide(traders[i].side, inverse), user[h].symbol, user[h].side);
      }
    }
  }

  lemma TrackedIffJoined(traders: seq<TraderPosition>, inverse: bool, user: map<string, BotPosition>, bot: BotState, symbol: string)
    requires OnePerSymbol(traders) && KeyedByHash(user) && bot.positions == Joined(traders, inverse, user)
    ensures Tracked(bot, symbol) <==>
      exists i :: 0 <= i < |traders| && traders[i].symbol == symbol && OurHash(traders[i], inverse) in user
  {
    hide OurHash;
    if Tracked(bot, symbol) {
      var h :| h in bot.positions && bot.positions[h].symbol == symbol;
      var i :| 0 <= i < |traders| && OurHash(traders[i], inverse) == h;
      JoinedSymbol(traders, inverse, user, i);
    }
    if i :| 0 <= i < |traders| && traders[i].symbol == symbol && OurHash(traders[i], inverse) in user {
      var h := OurHash(traders[i], inverse);
      assert TraderHolds(traders, inverse, h);
      JoinedSymbol(traders, inverse, user, i);
      assert h in bot.positions && bot.positions[h].symbol == symbol;
    }
  }

  lemma JoinedSymbol(traders: seq<TraderPosition>, inverse: bool, user: map<string, BotPosition>, i: nat)
    requires OnePerSymbol(traders) && KeyedByHash(user) && i < |traders| && OurHash(traders[i], inverse) in user
    ensures user[OurHash(traders[i], inverse)].symbol == traders[i].symbol
  {
    assert traders[i] in traders;
    var pos := user[OurHash(traders[i], inverse)];
    PosHashInjective(traders[i].symbol, EffectiveSide(traders[i].side, inverse), pos.symbol, pos.side);
  }

  /** With one position per symbol, whether the symbol was joined is decided by that position. */
  lemma OnlyIndex(traders: seq<TraderPosition>, inverse: bool, user: map<string, BotPosition>, i: nat)
    requires OnePerSymbol(traders) && i < |traders|
    ensures Unjoined(traders, inverse, user, traders[i].symbol) <==> OurHash(traders[i], inverse) !in user
    ensures (exists j :: 0 <= j < |traders| && traders[j].symbol == traders[i].symbol && OurHash(traders[j], inverse) in user)
      <==> OurHash(traders[i], inverse) in user
  {
    assert forall j :: 0 <= j < |traders| && traders[j].symbol == traders[i].symbol ==> j == i;
  }
}
