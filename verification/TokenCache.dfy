/**
 The KIS token cache (src/api/kis_account_snapshot_dual.py): any number of clients, in any
 number of processes, refresh one cached token under a lock file.

 A state holds the lock file, the cache file and the program counter of every client; one
 step is one system call of one client. Cache writes succeed, issued tokens are new and do not
 expire, and a lock file's modification time is the time of its creation. Deleting the lock
 file asks nobody who owns it, exactly as in the code.
 */
module TokenCache {
  import opened Common

  type Token = nat

  const STALE_LOCK_SECONDS := 180
  const LOCK_TIMEOUT_SECONDS := 90

  datatype Pc =
    | Idle
    | Creating
    | Judging
    | Unlinking
    | Checking
    | Requesting(prev: Option<Token>)
    | Saving(token: Token)
    | Releasing(result: Option<Token>)
    | Returned(token: Token)
    | Raised

  /** `own` is `access_token`; `stale` is the token a forced refresh set out to replace. */
  datatype Client = Client(
    pc: Pc, forced: bool, own: Option<Token>, stale: Option<Token>, since: int, deadline: int, calls: nat)

  datatype Lock = Lock(creator: int, mtime: int)

  /** A token KIS issued, and the cached token its request was made to replace. */
  datatype Issue = Issue(client: int, forced: bool, stale: Option<Token>, prev: Option<Token>, token: Token)

  /** `first` is the cached token at the start; `used` are the tokens that exist. */
  datatype System = System(
    time: int, lock: Option<Lock>, cache: Option<Token>, clients: seq<Client>,
    first: Option<Token>, used: set<Token>, issues: seq<Issue>)

  datatype Op =
    | Tick(seconds: nat)
    | Authenticate(i: nat, force: bool)
    | Create(i: nat)
    | Judge(i: nat)
    | Unlink(i: nat)
    | Recheck(i: nat)
    | Reply(i: nat, token: Option<Token>)
    | Save(i: nat)
    | Release(i: nat)

  predicate Inside(c: Client) {
    c.pc.Checking? || c.pc.Requesting? || c.pc.Saving? || c.pc.Releasing?
  }

  predicate Enabled(s: System, op: Op) {
    if op.Tick? then true
    else
      && op.i < |s.clients|
      && var pc := s.clients[op.i].pc;
      match op
      case Authenticate(_, _) => pc.Idle? || pc.Returned? || pc.Raised?
      case Create(_) => pc.Creating?
      case Judge(_) => pc.Judging?
      case Unlink(_) => pc.Unlinking?
      case Recheck(_) => pc.Checking?
      case Reply(_, token) => pc.Requesting? && (token.Some? ==> token.value !in s.used)
      case Save(_) => pc.Saving?
      case Release(_) => pc.Releasing?
  }

  /** The cached token may be used unless it is the very token a forced refresh replaces. */
  predicate MayUse(c: Client, cached: Option<Token>) {
    cached.Some? && (!c.forced || c.stale.None? || cached != c.stale)
  }

  function Apply(s: System, op: Op): System
    requires Enabled(s, op)
  {
    if op.Tick? then s.(time := s.time + op.seconds)
    else
      var c := s.clients[op.i];
      match op
      case Authenticate(i, force) =>
        if !force && s.cache.Some? then
          With(s, i, c.(pc := Returned(s.cache.value), forced := false, stale := None, own := s.cache,
                        calls := c.calls + 1))
        else
          With(s, i, c.(pc := Creating, forced := force, stale := if force then c.own else None,
                        deadline := s.time + LOCK_TIMEOUT_SECONDS, calls := c.calls + 1))
      case Create(i) =>
        if s.lock.None? then
          With(s, i, c.(pc := Checking, since := s.time)).(lock := Some(Lock(i, s.time)))
        else With(s, i, c.(pc := Judging))
      case Judge(i) =>
        if s.lock.Some? && s.time - s.lock.value.mtime > STALE_LOCK_SECONDS then With(s, i, c.(pc := Unlinking))
        else if s.time >= c.deadline then With(s, i, c.(pc := Raised))
        else With(s, i, c.(pc := Creating))
      case Unlink(i) => With(s, i, c.(pc := Creating)).(lock := None)
      case Recheck(i) =>
        if MayUse(c, s.cache) then With(s, i, c.(pc := Releasing(s.cache), own := s.cache))
        else With(s, i, c.(pc := Requesting(s.cache)))
      case Reply(i, token) =>
        if token.None? then With(s, i, c.(pc := Releasing(None)))
        else
          With(s, i, c.(pc := Saving(token.value), own := token)).(
            used := s.used + {token.value},
            issues := s.issues + [Issue(i, c.forced, c.stale, c.pc.prev, token.value)])
      case Save(i) => With(s, i, c.(pc := Releasing(Some(c.pc.token)))).(cache := Some(c.pc.token))
      case Release(i) =>
        With(s, i, c.(pc := if c.pc.result.Some? then Returned(c.pc.result.value) else Raised)).(lock := None)
  }

  function With(s: System, i: nat, c: Client): System
    requires i < |s.clients|
  {
    s.(clients := s.clients[i := c])
  }

  ghost predicate Init(s: System) {
    && s.lock.None? && s.cache == s.first && s.issues == []
    && (s.first.Some? ==> s.first.value in s.used)
    && forall i :: 0 <= i < |s.clients| ==>
         && s.clients[i].pc.Idle? && s.clients[i].calls == 0 && s.clients[i].stale.None?
         && (s.clients[i].own.Some? ==> s.clients[i].own.value in s.used)
  }

  ghost predicate Step(s: System, t: System) {
    exists op :: Enabled(s, op) && t == Apply(s, op)
  }

  ghost predicate Run(states: seq<System>) {
    && states != [] && Init(states[0])
    && forall k :: 0 <= k < |states| - 1 ==> Step(states[k], states[k + 1])
  }

  /** No client has been inside for longer than the stale threshold. */
  ghost predicate Prompt(s: System) {
    forall i :: 0 <= i < |s.clients| && Inside(s.clients[i]) ==> s.time - s.clients[i].since <= STALE_LOCK_SECONDS
  }

  ghost predicate PromptRun(states: seq<System>) {
    Run(states) && forall k :: 0 <= k < |states| ==> Prompt(states[k])
  }

  /** A step moves one client, or none. */
  lemma OneMoves(s: System, op: Op)
    requires Enabled(s, op)
    ensures var t := Apply(s, op);
      && t.first == s.first
      && (op.Tick? ==>
            && t.clients == s.clients && t.issues == s.issues && t.used == s.used
            && t.cache == s.cache && t.lock == s.lock)
      && (!op.Tick? ==> op.i < |s.clients| == |t.clients| && t.clients == s.clients[op.i := t.clients[op.i]])
  {
  }

  // ---------------------------------------------------------------- the lock

  /** The lock file is there exactly while its creator is inside, and nobody is about to delete it. */
  ghost predicate LockHeld(s: System) {
    && (forall i :: 0 <= i < |s.clients| && Inside(s.clients[i]) ==> s.lock == Some(Lock(i, s.clients[i].since)))
    && (s.lock.Some? ==> 0 <= s.lock.value.creator < |s.clients| && Inside(s.clients[s.lock.value.creator]))
    && (forall i :: 0 <= i < |s.clients| ==> !s.clients[i].pc.Unlinking?)
  }

  /** What a step of a client does to the lock file, by where the client was and where it is. */
  lemma LockMoves(s: System, op: Op)
    requires Enabled(s, op) && !op.Tick?
    ensures var t := Apply(s, op);
      var c, d := s.clients[op.i], t.clients[op.i];
      && (Inside(d) && !Inside(c) ==> s.lock == None && t.lock == Some(Lock(op.i, d.since)))
      && (Inside(d) && Inside(c) ==> t.lock == s.lock && d.since == c.since)
      && (!Inside(d) && Inside(c) ==> t.lock == None)
      && (!Inside(d) && !Inside(c) && !c.pc.Unlinking? ==> t.lock == s.lock)
      && (d.pc.Unlinking? ==> s.lock.Some? && s.time - s.lock.value.mtime > STALE_LOCK_SECONDS)
  {
  }

  lemma LockKept(s: System, op: Op)
    requires LockHeld(s) && Prompt(s) && Enabled(s, op)
    ensures LockHeld(Apply(s, op))
  {
    OneMoves(s, op);
    if !op.Tick? { LockMoves(s, op); }
    hide Apply, Enabled, Inside;
  }

  ghost predicate AtMostOneInside(s: System) {
    forall i, j :: 0 <= i < |s.clients| && 0 <= j < |s.clients| && Inside(s.clients[i]) && Inside(s.clients[j]) ==>
      i == j
  }

  lemma {:induction false} LockHeldThroughout(states: seq<System>, k: nat)
    requires PromptRun(states) && k < |states|
    ensures LockHeld(states[k])
  {
    if k > 0 {
      LockHeldThroughout(states, k - 1);
      assert Step(states[k - 1], states[k - 1 + 1]);
      var op :| Enabled(states[k - 1], op) && states[k] == Apply(states[k - 1], op);
      LockKept(states[k - 1], op);
    }
  }

  /** At most one client is inside the lock, and its own lock file is there as long as it is. */
  lemma MutualExclusion(states: seq<System>, k: nat)
    requires PromptRun(states) && k < |states|
    ensures AtMostOneInside(states[k])
    ensures forall i :: 0 <= i < |states[k].clients| && Inside(states[k].clients[i]) ==>
      states[k].lock.Some? && states[k].lock.value.creator == i
  {
    LockHeldThroughout(states, k);
  }

  // ---------------------------------------------------------------- the issue history

  function Latest(s: System): Option<Token> {
    if s.issues == [] then s.first else Some(s.issues[|s.issues| - 1].token)
  }

  /** Each issue replaces the token issued just before it, and no token is issued twice. */
  ghost predicate Chained(s: System) {
    && (s.issues != [] ==> s.issues[0].prev == s.first)
    && (forall k :: 1 <= k < |s.issues| ==> s.issues[k].prev == Some(s.issues[k - 1].token))
    && (forall k :: 0 <= k < |s.issues| ==> s.issues[k].token in s.used && Some(s.issues[k].token) != s.first)
    && (forall j, k :: 0 <= j < k < |s.issues| ==> s.issues[j].token != s.issues[k].token)
    && (s.first.Some? ==> s.first.value in s.used)
  }

  /** A request is made for an empty cache, or by a forced refresh of the very token in the cache. */
  predicate Needed(forced: bool, stale: Option<Token>, prev: Option<Token>) {
    prev.None? || (forced && stale == prev)
  }

  ghost predicate Justified(s: System) {
    forall k :: 0 <= k < |s.issues| ==> Needed(s.issues[k].forced, s.issues[k].stale, s.issues[k].prev)
  }

  ghost predicate NobodySaving(s: System) {
    forall i :: 0 <= i < |s.clients| ==> !s.clients[i].pc.Saving?
  }

  /** The cache holds the latest issued token, or its predecessor while the latest is being saved. */
  ghost predicate CacheCurrent(s: System) {
    && (NobodySaving(s) ==> s.cache == Latest(s))
    && (forall i :: 0 <= i < |s.clients| && s.clients[i].pc.Saving? ==>
          && s.issues != [] && s.issues[|s.issues| - 1].token == s.clients[i].pc.token
          && s.cache == s.issues[|s.issues| - 1].prev)
    && (forall i :: 0 <= i < |s.clients| && s.clients[i].pc.Requesting? ==>
          && s.clients[i].pc.prev == s.cache
          && Needed(s.clients[i].forced, s.clients[i].stale, s.cache))
  }

  ghost predicate Ledger(s: System) { Chained(s) && Justified(s) && CacheCurrent(s) }

  lemma ChainGrows(s: System, t: System, e: Issue)
    requires Chained(s) && t.issues == s.issues + [e] && t.first == s.first && t.used == s.used + {e.token}
    requires e.prev == Latest(s) && e.token !in s.used
    ensures Chained(t)
  {
    forall k | 0 <= k < |s.issues| ensures t.issues[k] == s.issues[k] && s.issues[k].token != e.token {}
    assert t.issues[|s.issues|] == e;
  }

  lemma JustifiedGrows(s: System, t: System, e: Issue)
    requires Justified(s) && t.issues == s.issues + [e] && Needed(e.forced, e.stale, e.prev)
    ensures Justified(t)
  {
    hide Needed;
  }

  lemma ReplyMoves(s: System, op: Op)
    requires Enabled(s, op) && op.Reply? && op.token.Some?
    ensures var t := Apply(s, op);
      var c, d := s.clients[op.i], t.clients[op.i];
      && c.pc.Requesting? && op.token.value !in s.used && d.pc == Saving(op.token.value) && t.cache == s.cache
      && t.used == s.used + {op.token.value}
      && t.issues == s.issues + [Issue(op.i, c.forced, c.stale, c.pc.prev, op.token.value)]
  {
  }

  lemma AloneInside(s: System, i: nat)
    requires LockHeld(s) && i < |s.clients| && Inside(s.clients[i])
    ensures forall j :: 0 <= j < |s.clients| && j != i ==> !s.clients[j].pc.Saving? && !s.clients[j].pc.Requesting?
  {
    forall j | 0 <= j < |s.clients| && j != i ensures !Inside(s.clients[j]) {}
  }

  lemma LedgerKeptByReply(s: System, op: Op)
    requires LockHeld(s) && Ledger(s) && Enabled(s, op) && op.Reply? && op.token.Some?
    ensures Ledger(Apply(s, op))
  {
    var t, i := Apply(s, op), op.i;
    OneMoves(s, op);
    ReplyMoves(s, op);
    AloneInside(s, i);
    hide Apply, Enabled, LockHeld, Chained, Justified;
    var e := t.issues[|s.issues|];
    assert NobodySaving(s);
    assert e.prev == s.cache == Latest(s) && Needed(e.forced, e.stale, e.prev) by { hide Needed; }
    ChainGrows(s, t, e);
    JustifiedGrows(s, t, e);
    assert t.clients[i].pc.Saving?;
  }

  lemma LedgerKeptBySave(s: System, op: Op)
    requires LockHeld(s) && Ledger(s) && Enabled(s, op) && op.Save?
    ensures Ledger(Apply(s, op))
  {
    var t := Apply(s, op);
    assert Inside(s.clients[op.i]);
    forall j | 0 <= j < |t.clients| ensures !t.clients[j].pc.Saving? && !t.clients[j].pc.Requesting? {
      assert Inside(s.clients[j]) ==> j == op.i;
    }
  }

  lemma OthersMove(s: System, op: Op)
    requires Enabled(s, op) && !op.Tick? && !op.Save? && !(op.Reply? && op.token.Some?)
    ensures var t := Apply(s, op);
      var c, d := s.clients[op.i], t.clients[op.i];
      && t.used == s.used && t.issues == s.issues && t.cache == s.cache
      && !c.pc.Saving? && !d.pc.Saving?
      && (d.pc.Requesting? ==> d.pc.prev == t.cache && Needed(d.forced, d.stale, t.cache))
  {
  }

  lemma LedgerKeptByOthers(s: System, op: Op)
    requires Ledger(s) && Enabled(s, op) && !op.Save? && !(op.Reply? && op.token.Some?)
    ensures Ledger(Apply(s, op))
  {
    var t := Apply(s, op);
    OneMoves(s, op);
    if op.Tick? {
      hide Apply, Enabled, Needed;
    } else {
      OthersMove(s, op);
      hide Apply, Enabled, Ledger, Needed;
      SameLedger(s, t, op.i);
    }
  }

  /** The issue history and the cache are as before, and the client that moved is not saving. */
  lemma SameLedger(s: System, t: System, i: nat)
    requires Ledger(s) && t.first == s.first && t.used == s.used && t.issues == s.issues && t.cache == s.cache
    requires i < |s.clients| && |t.clients| == |s.clients| && t.clients == s.clients[i := t.clients[i]]
    requires !s.clients[i].pc.Saving? && !t.clients[i].pc.Saving?
    requires t.clients[i].pc.Requesting? ==>
      t.clients[i].pc.prev == t.cache && Needed(t.clients[i].forced, t.clients[i].stale, t.cache)
    ensures Ledger(t)
  {
    assert Chained(t);
    forall k | 0 <= k < |t.issues| ensures Needed(t.issues[k].forced, t.issues[k].stale, t.issues[k].prev) {
      assert t.issues[k] == s.issues[k];
    }
    if NobodySaving(t) {
      forall j | 0 <= j < |s.clients| ensures !s.clients[j].pc.Saving? {
        if j != i { assert s.clients[j] == t.clients[j]; }
      }
    }
  }

  lemma LedgerKept(s: System, op: Op)
    requires LockHeld(s) && Ledger(s) && Enabled(s, op)
    ensures Ledger(Apply(s, op))
  {
    hide Ledger, Apply, LockHeld;
    if op.Save? {
      LedgerKeptBySave(s, op);
    } else if op.Reply? && op.token.Some? {
      LedgerKeptByReply(s, op);
    } else {
      LedgerKeptByOthers(s, op);
    }
  }

  lemma {:induction false} LedgerThroughout(states: seq<System>, k: nat)
    requires PromptRun(states) && k < |states|
    ensures LockHeld(states[k]) && Ledger(states[k])
  {
    LockHeldThroughout(states, k);
    if k > 0 {
      LedgerThroughout(states, k - 1);
      assert Step(states[k - 1], states[k - 1 + 1]);
      var op :| Enabled(states[k - 1], op) && states[k] == Apply(states[k - 1], op);
      LedgerKept(states[k - 1], op);
    }
  }

  /** Each token, and the empty cache, is superseded by at most one token request, made for cause. */
  lemma EachTokenSupersededOnce(states: seq<System>, k: nat)
    requires PromptRun(states) && k < |states|
    ensures forall a, b :: 0 <= a < b < |states[k].issues| ==> states[k].issues[a].prev != states[k].issues[b].prev
    ensures forall a :: 0 <= a < |states[k].issues| ==>
      var issue := states[k].issues[a];
      issue.prev.None? || (issue.forced && issue.stale.Some? && issue.stale == issue.prev)
    ensures NobodySaving(states[k]) ==> states[k].cache == Latest(states[k])
  {
    LedgerThroughout(states, k);
    var s := states[k];
    forall a, b | 0 <= a < b < |s.issues| ensures s.issues[a].prev != s.issues[b].prev {
      assert s.issues[b].prev == Some(s.issues[b - 1].token) && s.issues[b].prev != s.first;
      if a > 0 {
        assert s.issues[a].prev == Some(s.issues[a - 1].token);
        assert s.issues[a - 1].token != s.issues[b - 1].token;
      }
    }
  }

  // ---------------------------------------------------------------- a forced refresh

  /**
   Inside the lock: a request is made where the cache is empty, or still holds the very token a forced
   refresh set out to replace. Everything else takes the cached token over.
   */
  lemma RecheckDecides(s: System, i: nat)
    requires Enabled(s, Recheck(i))
    ensures var c, d := s.clients[i], Apply(s, Recheck(i)).clients[i];
      if s.cache.None? || (c.forced && c.stale.Some? && s.cache == c.stale)
      then d.pc == Requesting(s.cache) && d.own == c.own
      else d.pc == Releasing(s.cache) && d.own == s.cache
  {
  }

  /** Only a call that is not forced returns without the lock, and only a forced one has a token to replace. */
  lemma AuthenticateDecides(s: System, i: nat, force: bool)
    requires Enabled(s, Authenticate(i, force))
    ensures var c, d := s.clients[i], Apply(s, Authenticate(i, force)).clients[i];
      && d.forced == force && d.stale == (if force then c.own else None) && d.calls == c.calls + 1
      && (if force || s.cache.None? then d.pc == Creating && d.own == c.own
          else d.pc == Returned(s.cache.value) && d.own == s.cache)
  {
  }

  /** A waiter deletes a lock file older than 180 seconds, gives up 90 seconds after its call, and else tries again. */
  lemma JudgeDecides(states: seq<System>, j: nat, k: nat, i: nat, force: bool)
    requires Run(states) && j < k < |states| && i < |states[j].clients| && |states[k].clients| == |states[j].clients|
    requires Enabled(states[j], Authenticate(i, force)) && states[j + 1] == Apply(states[j], Authenticate(i, force))
    requires states[k].clients[i].calls == states[j].clients[i].calls + 1 && Enabled(states[k], Judge(i))
    requires force || states[j].cache.None?
    ensures var s := states[k];
      Apply(s, Judge(i)).clients[i].pc ==
      (if s.lock.Some? && s.lock.value.mtime + 180 < s.time then Unlinking
       else if states[j].time + 90 <= s.time then Raised
       else Creating)
  {
    CallKeptThroughout(states, j + 1, k, i);
  }

  /** Every token that somebody holds has been issued. */
  ghost predicate TokensExist(s: System) {
    && (s.cache.Some? ==> s.cache.value in s.used)
    && forall i :: 0 <= i < |s.clients| ==> HoldsExisting(s.clients[i], s.used)
  }

  ghost predicate HoldsExisting(c: Client, used: set<Token>) {
    && (c.own.Some? ==> c.own.value in used)
    && (c.stale.Some? ==> c.stale.value in used)
    && (c.pc.Saving? ==> c.pc.token in used)
  }

  /** A forced call is not about to save, to hand back or to have returned the token it replaces. */
  ghost predicate KeepsOff(c: Client) {
    c.forced && c.stale.Some? ==>
      && (c.pc.Saving? ==> c.pc.token != c.stale.value)
      && (c.pc.Releasing? ==> c.pc.result != c.stale)
      && (c.pc.Returned? ==> c.pc.token != c.stale.value)
  }

  ghost predicate AllKeepOff(s: System) {
    TokensExist(s) && forall i :: 0 <= i < |s.clients| ==> KeepsOff(s.clients[i])
  }

  lemma OneKeepsOff(s: System, op: Op)
    requires AllKeepOff(s) && Enabled(s, op) && !op.Tick?
    ensures var t := Apply(s, op);
      && s.used <= t.used && (t.cache.Some? ==> t.cache.value in t.used)
      && HoldsExisting(t.clients[op.i], t.used) && KeepsOff(t.clients[op.i])
  {
    assert HoldsExisting(s.clients[op.i], s.used) && KeepsOff(s.clients[op.i]);
  }

  lemma KeepOffKept(s: System, op: Op)
    requires AllKeepOff(s) && Enabled(s, op)
    ensures AllKeepOff(Apply(s, op))
  {
    OneMoves(s, op);
    if !op.Tick? { OneKeepsOff(s, op); }
    hide Apply, Enabled, KeepsOff;
  }

  lemma {:induction false} KeepOffThroughout(states: seq<System>, k: nat)
    requires Run(states) && k < |states|
    ensures AllKeepOff(states[k])
  {
    if k > 0 {
      hide AllKeepOff, Apply, Enabled, Init;
      KeepOffThroughout(states, k - 1);
      assert Step(states[k - 1], states[k - 1 + 1]);
      var op :| Enabled(states[k - 1], op) && states[k] == Apply(states[k - 1], op);
      KeepOffKept(states[k - 1], op);
    }
  }

  /** A client never forgets a call, and within one call it keeps what the call set out to replace. */
  lemma CallKept(s: System, op: Op, i: nat)
    requires Enabled(s, op) && i < |s.clients|
    ensures var t := Apply(s, op);
      && |t.clients| == |s.clients| && s.clients[i].calls <= t.clients[i].calls
      && (s.clients[i].calls == t.clients[i].calls ==>
            && s.clients[i].forced == t.clients[i].forced && s.clients[i].stale == t.clients[i].stale
            && s.clients[i].deadline == t.clients[i].deadline)
  {
  }

  lemma {:induction false} CallKeptThroughout(states: seq<System>, j: nat, k: nat, i: nat)
    requires Run(states) && j <= k < |states| && i < |states[j].clients|
    ensures |states[k].clients| == |states[j].clients| && states[j].clients[i].calls <= states[k].clients[i].calls
    ensures states[j].clients[i].calls == states[k].clients[i].calls ==>
      && states[j].clients[i].forced == states[k].clients[i].forced
      && states[j].clients[i].stale == states[k].clients[i].stale
      && states[j].clients[i].deadline == states[k].clients[i].deadline
  {
    if j < k {
      hide Apply, Enabled, Init;
      CallKeptThroughout(states, j, k - 1, i);
      assert Step(states[k - 1], states[k - 1 + 1]);
      var op :| Enabled(states[k - 1], op) && states[k] == Apply(states[k - 1], op);
      CallKept(states[k - 1], op, i);
    }
  }

  /**
   A client that holds the token `rejected` forces a refresh. For as long as that call lasts, in every
   run, it never hands that token back, whatever the other clients do and however long it takes.
   */
  lemma RejectedTokenIsReplaced(states: seq<System>, j: nat, k: nat, i: nat, rejected: Token)
    requires Run(states) && j < k < |states| && i < |states[j].clients| && |states[k].clients| == |states[j].clients|
    requires Enabled(states[j], Authenticate(i, true)) && states[j + 1] == Apply(states[j], Authenticate(i, true))
    requires states[j].clients[i].own == Some(rejected)
    requires states[k].clients[i].calls == states[j].clients[i].calls + 1
    ensures states[k].clients[i].forced && states[k].clients[i].stale == Some(rejected)
    ensures states[k].clients[i].pc != Returned(rejected)
    ensures states[k].clients[i].pc != Releasing(Some(rejected))
    ensures states[k].clients[i].pc.Checking? && states[k].cache == Some(rejected) ==>
      Apply(states[k], Recheck(i)).clients[i].pc == Requesting(Some(rejected))
  {
    AuthenticateDecides(states[j], i, true);
    CallKeptThroughout(states, j + 1, k, i);
    KeepOffThroughout(states, k);
    if states[k].clients[i].pc.Checking? { RecheckDecides(states[k], i); }
    hide Run, Apply, Enabled, TokensExist;
    assert KeepsOff(states[k].clients[i]);
  }

  // ---------------------------------------------------------------- a burst of fresh clients

  ghost predicate Known(s: System, token: Token) {
    s.first == Some(token) || exists k :: 0 <= k < |s.issues| && s.issues[k].token == token
  }

  /** A client that has called once has no token to replace. */
  ghost predicate FreshClients(s: System) {
    && (forall i :: 0 <= i < |s.clients| && s.clients[i].calls == 0 ==> s.clients[i].own.None? && s.clients[i].pc.Idle?)
    && (forall i :: 0 <= i < |s.clients| && s.clients[i].calls <= 1 ==> s.clients[i].stale.None?)
    && (forall k :: 0 <= k < |s.issues| && s.issues[k].stale.Some? ==>
          0 <= s.issues[k].client < |s.clients| && s.clients[s.issues[k].client].calls >= 2)
  }

  /** Only tokens that were in the cache at the start or issued since are handed out. */
  ghost predicate TokensKnown(s: System) {
    && (s.cache.Some? ==> Known(s, s.cache.value))
    && (forall i :: 0 <= i < |s.clients| ==>
          && (s.clients[i].pc.Saving? || s.clients[i].pc.Returned? ==> Known(s, s.clients[i].pc.token))
          && (s.clients[i].pc.Releasing? && s.clients[i].pc.result.Some? ==> Known(s, s.clients[i].pc.result.value)))
  }

  /** What a step does to the calls and the stale token of the client that moves. */
  lemma CallsMove(s: System, op: Op)
    requires Enabled(s, op) && !op.Tick?
    requires var c := s.clients[op.i];
      (c.calls == 0 ==> c.own.None? && c.pc.Idle?) && (c.calls <= 1 ==> c.stale.None?)
    ensures var t := Apply(s, op);
      var c, d := s.clients[op.i], t.clients[op.i];
      && c.calls <= d.calls && d.calls > 0 && (d.calls <= 1 ==> d.stale.None?)
      && (t.issues == s.issues
          || exists e :: t.issues == s.issues + [e] && e.client == op.i && e.stale == d.stale)
  {
    if op.Reply? && op.token.Some? {
      var c := s.clients[op.i];
      var e := Issue(op.i, c.forced, c.stale, c.pc.prev, op.token.value);
      assert Apply(s, op).issues == s.issues + [e];
    }
  }

  lemma FreshKept(s: System, op: Op)
    requires FreshClients(s) && Enabled(s, op)
    ensures FreshClients(Apply(s, op))
  {
    var t := Apply(s, op);
    OneMoves(s, op);
    if !op.Tick? { CallsMove(s, op); }
    hide Apply, Enabled;
  }

  /** Tokens stay known: the history only grows. */
  lemma KnownGrows(s: System, t: System)
    requires t.first == s.first && |s.issues| <= |t.issues| && t.issues[..|s.issues|] == s.issues
    ensures forall token :: Known(s, token) ==> Known(t, token)
  {
    forall token: Token | Known(s, token) ensures Known(t, token) {
      if s.first != Some(token) {
        var k :| 0 <= k < |s.issues| && s.issues[k].token == token;
        assert t.issues[k] == s.issues[k];
      }
    }
  }

  /** Where the tokens of the client that moved come from. */
  lemma TokensMove(s: System, op: Op)
    requires Enabled(s, op) && !op.Tick?
    ensures var t := Apply(s, op);
      var c, d := s.clients[op.i].pc, t.clients[op.i].pc;
      && (d.Saving? ==> op.Reply? && op.token == Some(d.token))
      && (d.Returned? ==> s.cache == Some(d.token) || (c.Releasing? && c.result == Some(d.token)))
      && (d.Releasing? && d.result.Some? ==> s.cache == d.result || (c.Saving? && Some(c.token) == d.result))
      && (t.cache == s.cache || (c.Saving? && t.cache == Some(c.token)))
  {
  }

  lemma IssuesMove(s: System, op: Op)
    requires Enabled(s, op)
    ensures var t := Apply(s, op);
      && |s.issues| <= |t.issues| && t.issues[..|s.issues|] == s.issues
      && (op.Reply? && op.token.Some? ==>
            |t.issues| == |s.issues| + 1 && t.issues[|s.issues|].token == op.token.value)
  {
  }

  lemma KnownKept(s: System, op: Op)
    requires TokensKnown(s) && Enabled(s, op)
    ensures TokensKnown(Apply(s, op))
  {
    var t := Apply(s, op);
    OneMoves(s, op);
    IssuesMove(s, op);
    KnownGrows(s, t);
    if !op.Tick? { TokensMove(s, op); }
    if op.Reply? && op.token.Some? { assert Known(t, op.token.value); }
    hide Known, Apply, Enabled;
  }

  lemma InitiallyFresh(s: System)
    requires Init(s) && forall i :: 0 <= i < |s.clients| ==> s.clients[i].own.None?
    ensures FreshClients(s) && TokensKnown(s)
  {
  }

  lemma {:induction false} FreshThroughout(states: seq<System>, k: nat)
    requires Run(states) && k < |states|
    requires forall i :: 0 <= i < |states[0].clients| ==> states[0].clients[i].own.None?
    ensures FreshClients(states[k]) && TokensKnown(states[k]) && states[k].first == states[0].first
  {
    if k == 0 {
      InitiallyFresh(states[0]);
    } else {
      hide FreshClients, TokensKnown, Apply, Enabled, Init;
      FreshThroughout(states, k - 1);
      assert Step(states[k - 1], states[k - 1 + 1]);
      var op :| Enabled(states[k - 1], op) && states[k] == Apply(states[k - 1], op);
      OneMoves(states[k - 1], op);
      FreshKept(states[k - 1], op);
      KnownKept(states[k - 1], op);
    }
  }

  lemma OnlyFirstReplacesNothing(s: System)
    requires Chained(s)
    ensures (forall a :: 0 <= a < |s.issues| ==> s.issues[a].prev.None?) ==> |s.issues| <= 1
  {
    if |s.issues| > 1 { assert s.issues[1].prev.Some?; }
  }

  /** Fresh clients that each call once on an empty cache cause one issue, and all return its token. */
  lemma BurstIssuesOneToken(states: seq<System>, k: nat)
    requires PromptRun(states) && k < |states|
    requires states[0].first.None? && forall i :: 0 <= i < |states[0].clients| ==> states[0].clients[i].own.None?
    requires forall i :: 0 <= i < |states[k].clients| ==> states[k].clients[i].calls <= 1
    ensures |states[k].issues| <= 1
    ensures forall i :: 0 <= i < |states[k].clients| && states[k].clients[i].pc.Returned? ==>
      |states[k].issues| == 1 && states[k].clients[i].pc.token == states[k].issues[0].token
  {
    LedgerThroughout(states, k);
    FreshThroughout(states, k);
    var s := states[k];
    hide PromptRun, Run, LockHeld, CacheCurrent;
    forall a | 0 <= a < |s.issues| ensures s.issues[a].prev.None? {
      assert s.issues[a].stale.None?;
      assert Needed(s.issues[a].forced, s.issues[a].stale, s.issues[a].prev);
    }
    OnlyFirstReplacesNothing(s);
    forall i | 0 <= i < |s.clients| && s.clients[i].pc.Returned?
      ensures |s.issues| == 1 && s.clients[i].pc.token == s.issues[0].token
    {
      assert Known(s, s.clients[i].pc.token);
    }
  }

  // ---------------------------------------------------------------- why promptness is needed

  lemma Extend(states: seq<System>, s: System, op: Op) returns (longer: seq<System>, t: System)
    requires Run(states) && states[|states| - 1] == s && Enabled(s, op)
    ensures Run(longer) && longer[|longer| - 1] == t == Apply(s, op)
  {
    t := Apply(s, op);
    longer := states + [t];
    hide Apply, Enabled, Init;
    forall k | 0 <= k < |longer| - 1 ensures Step(longer[k], longer[k + 1]) {
      if k < |states| - 1 {
        assert longer[k] == states[k] && longer[k + 1] == states[k + 1];
      } else {
        assert longer[k] == states[|states| - 1];
      }
    }
  }

  const FRESH := Client(Idle, false, None, None, 0, 0, 0)

  /** Client 0 creates the lock file and never acts again; clients 1 and 2 find it after 181 seconds. */
  lemma CrashedHolder() returns (run: seq<System>, s: System)
    ensures Run(run) && s == run[|run| - 1]
    ensures
      var waiting := FRESH.(pc := Judging, deadline := 271, calls := 1);
      s == System(181, Some(Lock(0, 0)), None,
                  [FRESH.(pc := Checking, deadline := 90, calls := 1), waiting, waiting], None, {}, [])
  {
    s := System(0, None, None, [FRESH, FRESH, FRESH], None, {}, []);
    run := [s];
    run, s := Extend(run, s, Authenticate(0, false));
    run, s := Extend(run, s, Create(0));
    run, s := Extend(run, s, Tick(181));
    run, s := Extend(run, s, Authenticate(1, false));
    run, s := Extend(run, s, Authenticate(2, false));
    run, s := Extend(run, s, Create(1));
    run, s := Extend(run, s, Create(2));
  }

  /**
   One crashed holder is enough to break exclusion: both waiters judge its lock stale, and the
   second deletes the lock file the first has just made. Both are then inside, neither of them late.
   */
  lemma CrashedHolderBreaksExclusion()
    ensures exists run: seq<System> :: Run(run) && BothInside(run[|run| - 1])
  {
    var run, s := CrashedHolder();
    run, s := Extend(run, s, Judge(1));
    run, s := Extend(run, s, Judge(2));
    run, s := Extend(run, s, Unlink(1));
    run, s := Extend(run, s, Create(1));
    run, s := Extend(run, s, Unlink(2));
    run, s := Extend(run, s, Create(2));
    assert BothInside(run[|run| - 1]);
  }

  ghost predicate BothInside(s: System) {
    && |s.clients| == 3
    && Inside(s.clients[1]) && Inside(s.clients[2])
    && s.clients[1].since == s.clients[2].since == s.time
    && !AtMostOneInside(s)
  }

  // ---------------------------------------------------------------- exactly when exclusion can be broken

  ghost predicate Late(s: System, i: int) {
    0 <= i < |s.clients| && Inside(s.clients[i]) && s.time - s.clients[i].since > STALE_LOCK_SECONDS
  }

  ghost predicate Acts(s: System, t: System) {
    exists op: Op :: !op.Tick? && Enabled(s, op) && t == Apply(s, op)
  }

  /** States that follow each other before the clock moves again. */
  ghost predicate Instant(path: seq<System>) {
    path != [] && forall k :: 0 <= k < |path| - 1 ==> Acts(path[k], path[k + 1])
  }

  ghost predicate Collides(s: System) {
    exists path :: Instant(path) && path[0] == s && !AtMostOneInside(path[|path| - 1])
  }

  lemma SinceMoves(s: System, op: Op)
    requires Enabled(s, op) && !op.Tick?
    ensures var t := Apply(s, op);
      var c, d := s.clients[op.i], t.clients[op.i];
      t.time == s.time && (Inside(d) ==> d.since == s.time || (Inside(c) && d.since == c.since))
  {
  }

  lemma PromptKept(s: System, op: Op)
    requires Prompt(s) && Enabled(s, op) && !op.Tick?
    ensures Prompt(Apply(s, op))
  {
    OneMoves(s, op);
    SinceMoves(s, op);
    hide Apply, Enabled, Inside;
  }

  lemma {:induction false} ExclusiveInstant(path: seq<System>, k: nat)
    requires Instant(path) && k < |path| && LockHeld(path[0]) && Prompt(path[0])
    ensures LockHeld(path[k]) && Prompt(path[k])
  {
    hide LockHeld, Prompt, Apply, Enabled;
    if k > 0 {
      ExclusiveInstant(path, k - 1);
      assert Acts(path[k - 1], path[k - 1 + 1]);
      var op: Op :| !op.Tick? && Enabled(path[k - 1], op) && path[k] == Apply(path[k - 1], op);
      LockKept(path[k - 1], op);
      PromptKept(path[k - 1], op);
    }
  }

  lemma Then(path: seq<System>, op: Op) returns (longer: seq<System>, t: System)
    requires Instant(path) && !op.Tick? && Enabled(path[|path| - 1], op)
    ensures Instant(longer) && longer[0] == path[0]
    ensures t == Apply(path[|path| - 1], op) && longer == path + [t]
  {
    t := Apply(path[|path| - 1], op);
    longer := path + [t];
    assert Acts(path[|path| - 1], t);
    hide Acts, Apply, Enabled;
    forall k | 0 <= k < |longer| - 1 ensures Acts(longer[k], longer[k + 1]) {
      if k < |path| - 1 { assert longer[k] == path[k] && longer[k + 1] == path[k + 1]; }
    }
  }

  /** Client i is late behind its own lock file, and j is another client. */
  ghost predicate Overdue(s: System, i: nat, j: nat) {
    i < |s.clients| && j < |s.clients| && i != j && Late(s, i) && s.lock == Some(Lock(i, s.clients[i].since))
  }

  lemma BecomesCreating(s: System, i: nat, j: nat) returns (path: seq<System>, t: System)
    requires Overdue(s, i, j)
    requires var pc := s.clients[j].pc; pc.Idle? || pc.Returned? || pc.Raised? || pc.Creating?
    ensures Instant(path) && path[0] == s && path[|path| - 1] == t && Overdue(t, i, j) && t.clients[j].pc.Creating?
  {
    path, t := [s], s;
    if !s.clients[j].pc.Creating? { path, t := Then(path, Authenticate(j, true)); }
  }

  lemma BecomesJudging(s: System, i: nat, j: nat) returns (path: seq<System>, t: System)
    requires Overdue(s, i, j) && !Inside(s.clients[j]) && !s.clients[j].pc.Unlinking?
    ensures Instant(path) && path[0] == s && path[|path| - 1] == t && Overdue(t, i, j) && t.clients[j].pc.Judging?
  {
    path, t := [s], s;
    if !s.clients[j].pc.Judging? {
      path, t := BecomesCreating(s, i, j);
      path, t := Then(path, Create(j));
    }
  }

  /** The waiter judges the lock stale, deletes it and makes its own, while its late holder is still inside. */
  lemma WaiterEnters(s: System, i: nat, j: nat)
    requires Overdue(s, i, j) && !Inside(s.clients[j]) && !s.clients[j].pc.Unlinking?
    ensures Collides(s)
  {
    var path, t := BecomesJudging(s, i, j);
    path, t := Then(path, Judge(j));
    assert t.clients[j].pc.Unlinking? && Inside(t.clients[i]);
    path, t := Then(path, Unlink(j));
    assert t.clients[j].pc.Creating? && Inside(t.clients[i]) && t.lock.None?;
    path, t := Then(path, Create(j));
    assert Inside(t.clients[j]) && Inside(t.clients[i]);
  }

  /**
   Two of two or more clients can be inside before the clock moves again if and only if somebody
   inside is late.
   */
  lemma CollidesIffLate(s: System)
    requires LockHeld(s) && |s.clients| >= 2
    ensures Collides(s) <==> exists i :: Late(s, i)
  {
    if i :| Late(s, i) {
      var j := if i == 0 then 1 else 0;
      LateIsOverdue(s, i, j);
      WaiterEnters(s, i, j);
    } else {
      assert Prompt(s) by { forall i | 0 <= i < |s.clients| && Inside(s.clients[i]) ensures !Late(s, i) {} }
      hide Instant, LockHeld, Prompt;
      if path :| Instant(path) && path[0] == s && !AtMostOneInside(path[|path| - 1]) {
        ExclusiveInstant(path, |path| - 1);
        HeldIsExclusive(path[|path| - 1]);
      }
    }
  }

  lemma HeldIsExclusive(s: System)
    requires LockHeld(s)
    ensures AtMostOneInside(s)
  {
  }

  lemma LateIsOverdue(s: System, i: nat, j: nat)
    requires LockHeld(s) && Late(s, i) && j < |s.clients| && i != j
    ensures Overdue(s, i, j) && !Inside(s.clients[j]) && !s.clients[j].pc.Unlinking?
  {
  }

  /** In every run that was prompt so far, exclusion is at risk exactly in the first state that is not. */
  lemma ExclusionIffPrompt(states: seq<System>)
    requires Run(states) && |states[0].clients| >= 2
    requires forall k :: 0 <= k < |states| - 1 ==> Prompt(states[k])
    ensures Collides(states[|states| - 1]) <==> !Prompt(states[|states| - 1])
  {
    HeldBeforeLate(states, |states| - 1);
    var s := states[|states| - 1];
    CollidesIffLate(s);
    hide Run, LockHeld, Collides;
    if !Prompt(s) {
      var i :| 0 <= i < |s.clients| && Inside(s.clients[i]) && s.time - s.clients[i].since > STALE_LOCK_SECONDS;
      assert Late(s, i);
    }
  }

  lemma {:induction false} HeldBeforeLate(states: seq<System>, k: nat)
    requires Run(states) && k < |states|
    requires forall j :: 0 <= j < |states| - 1 ==> Prompt(states[j])
    ensures LockHeld(states[k]) && |states[k].clients| == |states[0].clients|
  {
    if k == 0 {
      hide Prompt;
    } else {
      hide LockHeld, Prompt, Init;
      HeldBeforeLate(states, k - 1);
      assert Step(states[k - 1], states[k - 1 + 1]);
      var op :| Enabled(states[k - 1], op) && states[k] == Apply(states[k - 1], op);
      OneMoves(states[k - 1], op);
      LockKept(states[k - 1], op);
    }
  }
}
