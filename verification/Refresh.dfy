// Refresh-token rotation families: handleRefresh, handleLogout and issueSession
// over the token table (services/tenancy/authflow.go, services/tenancy/postgres.go;
// section 4.14.2 of RFC 9700). Every store call is one step, so handlers interleave
// freely; any call may fail before or after it takes effect, and any handler may die.
module Refresh {
  import opened Basics

  type TokenId = nat
  type Family = nat
  type Tid = nat
  type Time = int

  /** A token row. `parent` is history: the token whose refresh minted this one. */
  datatype Token = Token(
    family: Family, expiresAt: Time, usedAt: Option<Time>, revokedAt: Option<Time>, parent: Option<TokenId>)

  type Tokens = map<TokenId, Token>

  // ---- the statements ----

  function MarkUsed(t: Tokens, id: TokenId, now: Time): Tokens
  {
    if id in t && t[id].usedAt.None? then t[id := t[id].(usedAt := Some(now))] else t
  }

  function RevokedRow(row: Token, fam: Family, now: Time): Token
  {
    if row.family == fam && row.revokedAt.None? then row.(revokedAt := Some(now)) else row
  }

  function RevokeFamily(t: Tokens, fam: Family, now: Time): Tokens
  {
    map id | id in t :: RevokedRow(t[id], fam, now)
  }

  function CreateToken(t: Tokens, id: TokenId, fam: Family, expires: Time, parent: Option<TokenId>): Tokens
  {
    t[id := Token(fam, expires, None, None, parent)]
  }

  /** handleRefresh's decision on the row it read. */
  datatype Decision = Rejected | Reused | Expired | Usable

  function Decide(row: Token, now: Time): Decision
  {
    if row.revokedAt.Some? then Rejected
    else if row.usedAt.Some? then Reused
    else if now > row.expiresAt then Expired
    else Usable
  }

  // ---- interleaved handlers ----

  /** Where a handler stands after its lookup. */
  datatype Pc =
    | Marking(id: TokenId, fam: Family)   // the row read looked usable
    | Issuing(id: TokenId, fam: Family)   // MarkRefreshTokenUsed succeeded
    | Revoking(fam: Family)               // reuse detected, or logout

  datatype Sys = Sys(tokens: Tokens, handlers: map<Tid, Pc>)

  datatype Act =
    | BeginRefresh(tid: Tid, id: TokenId, now: Time)
    | BeginLogout(tid: Tid, id: TokenId)
    | Mark(tid: Tid, now: Time, o: Outcome)
    | Issue(tid: Tid, minted: TokenId, expires: Time, o: Outcome)
    | Revoke(tid: Tid, now: Time, o: Outcome)
    | Login(minted: TokenId, fam: Family, expires: Time)
    | Die(tid: Tid)

  function Stop(s: Sys, tid: Tid): Sys
  {
    s.(handlers := s.handlers - {tid})
  }

  function Goto(s: Sys, tid: Tid, pc: Pc): Sys
  {
    s.(handlers := s.handlers[tid := pc])
  }

  function Begin(s: Sys, tid: Tid, id: TokenId, now: Time): Sys
  {
    if tid in s.handlers || id !in s.tokens then s
    else match Decide(s.tokens[id], now)
      case Usable => Goto(s, tid, Marking(id, s.tokens[id].family))
      case Reused => Goto(s, tid, Revoking(s.tokens[id].family))
      case _ => s
  }

  function Marks(s: Sys, tid: Tid, now: Time, o: Outcome): Sys
    requires tid in s.handlers && s.handlers[tid].Marking?
  {
    var id, fam := s.handlers[tid].id, s.handlers[tid].fam;
    if o == FailsBefore || id !in s.tokens || s.tokens[id].usedAt.Some? then Stop(s, tid)
    else
      var t := s.(tokens := MarkUsed(s.tokens, id, now));
      if o == Succeeds then Goto(t, tid, Issuing(id, fam)) else Stop(t, tid)
  }

  /** issueSession on the family: the new row, unless a lookup or the insert fails. */
  function Issues(s: Sys, tid: Tid, minted: TokenId, expires: Time, o: Outcome): Sys
    requires tid in s.handlers && s.handlers[tid].Issuing?
  {
    var pc := s.handlers[tid];
    if o == FailsBefore || minted in s.tokens then Stop(s, tid)
    else Stop(s, tid).(tokens := CreateToken(s.tokens, minted, pc.fam, expires, Some(pc.id)))
  }

  function Revokes(s: Sys, tid: Tid, now: Time, o: Outcome): Sys
    requires tid in s.handlers && s.handlers[tid].Revoking?
  {
    if o == FailsBefore then Stop(s, tid)
    else Stop(s, tid).(tokens := RevokeFamily(s.tokens, s.handlers[tid].fam, now))
  }

  /** A family id that was never handed out. */
  ghost predicate FreshFamily(t: Tokens, fam: Family)
  {
    forall id :: id in t ==> t[id].family != fam
  }

  ghost function Step(s: Sys, a: Act): Sys
  {
    match a
    case BeginRefresh(tid, id, now) => Begin(s, tid, id, now)
    case BeginLogout(tid, id) =>
      if tid in s.handlers || id !in s.tokens then s else Goto(s, tid, Revoking(s.tokens[id].family))
    case Mark(tid, now, o) => if tid in s.handlers && s.handlers[tid].Marking? then Marks(s, tid, now, o) else s
    case Issue(tid, minted, expires, o) =>
      if tid in s.handlers && s.handlers[tid].Issuing? then Issues(s, tid, minted, expires, o) else s
    case Revoke(tid, now, o) => if tid in s.handlers && s.handlers[tid].Revoking? then Revokes(s, tid, now, o) else s
    case Login(minted, fam, expires) =>
      if minted in s.tokens || !FreshFamily(s.tokens, fam) then s
      else s.(tokens := CreateToken(s.tokens, minted, fam, expires, None))
    case Die(tid) => Stop(s, tid)
  }

  ghost function Continue(s: Sys, acts: seq<Act>): Sys
  {
    if acts == [] then s else Step(Continue(s, acts[..|acts| - 1]), acts[|acts| - 1])
  }

  function Start(): Sys
  {
    Sys(map[], map[])
  }

  ghost function Exec(acts: seq<Act>): Sys
  {
    Continue(Start(), acts)
  }

  // ---- at most one live branch per family ----

  predicate IsUnused(row: Token, fam: Family) { row.family == fam && row.usedAt.None? }

  predicate IsIssuing(pc: Pc, fam: Family) { pc.Issuing? && pc.fam == fam }

  function UnusedIn(t: Tokens, fam: Family): set<TokenId>
  {
    set id | id in t && IsUnused(t[id], fam)
  }

  function IssuingIn(handlers: map<Tid, Pc>, fam: Family): set<Tid>
  {
    set t | t in handlers && IsIssuing(handlers[t], fam)
  }

  function Unused(s: Sys, fam: Family): set<TokenId> { UnusedIn(s.tokens, fam) }

  function IssuingOn(s: Sys, fam: Family): set<Tid> { IssuingIn(s.handlers, fam) }

  lemma UnusedAfter(t: Tokens, id: TokenId, row: Token, fam: Family)
    ensures |UnusedIn(t[id := row], fam)|
         == |UnusedIn(t, fam)| + Bit(IsUnused(row, fam)) - Bit(id in t && IsUnused(t[id], fam))
  {
    var before, after := UnusedIn(t, fam), UnusedIn(t[id := row], fam);
    var others := before - {id};
    assert after == if IsUnused(row, fam) then others + {id} else others;
    assert before == if id in before then others + {id} else others;
  }

  lemma IssuingAfterPut(h: map<Tid, Pc>, tid: Tid, pc: Pc, fam: Family)
    requires tid in h
    ensures |IssuingIn(h[tid := pc], fam)| == |IssuingIn(h, fam)| + Bit(IsIssuing(pc, fam)) - Bit(IsIssuing(h[tid], fam))
  {
    var before, after := IssuingIn(h, fam), IssuingIn(h[tid := pc], fam);
    var others := before - {tid};
    assert after == if IsIssuing(pc, fam) then others + {tid} else others;
    assert before == if tid in before then others + {tid} else others;
  }

  lemma IssuingAfterStop(h: map<Tid, Pc>, tid: Tid, fam: Family)
    ensures |IssuingIn(h - {tid}, fam)| == |IssuingIn(h, fam)| - Bit(tid in h && IsIssuing(h[tid], fam))
  {
    hide IsIssuing;
    var before, after := IssuingIn(h, fam), IssuingIn(h - {tid}, fam);
    assert after == before - {tid};
    assert before == if tid in before then after + {tid} else after;
  }

  /** Handlers speak of existing rows and carry their family. */
  ghost predicate HandlersKnowRows(s: Sys)
  {
    forall t :: t in s.handlers && !s.handlers[t].Revoking? ==>
      && s.handlers[t].id in s.tokens && s.tokens[s.handlers[t].id].family == s.handlers[t].fam
      && (s.handlers[t].Issuing? ==> s.tokens[s.handlers[t].id].usedAt.Some?)
  }

  ghost predicate OneBranch(s: Sys, fam: Family)
  {
    |Unused(s, fam)| + |IssuingOn(s, fam)| <= 1
  }

  lemma MarkMoves(s: Sys, tid: Tid, now: Time, o: Outcome, fam: Family)
    requires HandlersKnowRows(s) && tid in s.handlers && s.handlers[tid].Marking?
    ensures |Unused(Marks(s, tid, now, o), fam)| + |IssuingOn(Marks(s, tid, now, o), fam)|
         <= |Unused(s, fam)| + |IssuingOn(s, fam)|
  {
    hide UnusedIn, IssuingIn;
    var id, fam0 := s.handlers[tid].id, s.handlers[tid].fam;
    IssuingAfterStop(s.handlers, tid, fam);
    IssuingAfterPut(s.handlers, tid, Issuing(id, fam0), fam);
    UnusedAfter(s.tokens, id, s.tokens[id].(usedAt := Some(now)), fam);
  }

  lemma IssueMoves(s: Sys, tid: Tid, minted: TokenId, expires: Time, o: Outcome, fam: Family)
    requires tid in s.handlers && s.handlers[tid].Issuing?
    ensures |Unused(Issues(s, tid, minted, expires, o), fam)| + |IssuingOn(Issues(s, tid, minted, expires, o), fam)|
         <= |Unused(s, fam)| + |IssuingOn(s, fam)|
  {
    hide UnusedIn, IssuingIn;
    var pc := s.handlers[tid];
    IssuingAfterStop(s.handlers, tid, fam);
    UnusedAfter(s.tokens, minted, Token(pc.fam, expires, None, None, Some(pc.id)), fam);
  }

  lemma BeginMoves(s: Sys, tid: Tid, pc: Pc, fam: Family)
    requires tid !in s.handlers && !pc.Issuing?
    ensures IssuingOn(Goto(s, tid, pc), fam) == IssuingOn(s, fam)
  {
  }

  lemma RevokeMoves(s: Sys, tid: Tid, now: Time, o: Outcome, fam: Family)
    requires tid in s.handlers && s.handlers[tid].Revoking?
    ensures Unused(Revokes(s, tid, now, o), fam) == Unused(s, fam)
    ensures IssuingOn(Revokes(s, tid, now, o), fam) == IssuingOn(s, fam)
  {
  }

  /** A login opens a family of its own. */
  lemma LoginMoves(s: Sys, minted: TokenId, mine: Family, expires: Time, fam: Family)
    requires HandlersKnowRows(s) && OneBranch(s, fam) && minted !in s.tokens && FreshFamily(s.tokens, mine)
    ensures OneBranch(s.(tokens := CreateToken(s.tokens, minted, mine, expires, None)), fam)
  {
    var t := s.(tokens := CreateToken(s.tokens, minted, mine, expires, None));
    assert IssuingOn(t, fam) == IssuingOn(s, fam);
    if mine == fam {
      assert Unused(s, fam) == {} && IssuingOn(s, fam) == {};
      assert Unused(t, fam) == {minted};
    } else {
      assert Unused(t, fam) == Unused(s, fam);
    }
  }

  lemma DieMoves(s: Sys, tid: Tid, fam: Family)
    ensures |IssuingOn(Stop(s, tid), fam)| <= |IssuingOn(s, fam)|
  {
    assert IssuingOn(Stop(s, tid), fam) == IssuingOn(s, fam) - {tid};
  }

  lemma OtherStepsMove(s: Sys, a: Act, fam: Family)
    requires HandlersKnowRows(s) && OneBranch(s, fam) && !a.Mark? && !a.Issue?
    ensures OneBranch(Step(s, a), fam)
  {
    hide UnusedIn, IssuingIn, HandlersKnowRows, FreshFamily, RevokeFamily;
    match a
    case BeginRefresh(tid, id, now) =>
      if tid !in s.handlers && id in s.tokens {
        BeginMoves(s, tid, Marking(id, s.tokens[id].family), fam);
        BeginMoves(s, tid, Revoking(s.tokens[id].family), fam);
      }
    case BeginLogout(tid, id) =>
      if tid !in s.handlers && id in s.tokens { BeginMoves(s, tid, Revoking(s.tokens[id].family), fam); }
    case Revoke(tid, now, o) => if tid in s.handlers && s.handlers[tid].Revoking? { RevokeMoves(s, tid, now, o, fam); }
    case Login(minted, mine, expires) =>
      if minted !in s.tokens && FreshFamily(s.tokens, mine) { LoginMoves(s, minted, mine, expires, fam); }
    case Die(tid) => DieMoves(s, tid, fam);
  }

  lemma StepKeepsRows(s: Sys, a: Act)
    requires HandlersKnowRows(s)
    ensures HandlersKnowRows(Step(s, a))
    ensures forall id :: id in s.tokens ==> id in Step(s, a).tokens && Step(s, a).tokens[id].family == s.tokens[id].family
  {
  }

  lemma {:induction false} ReachableRows(acts: seq<Act>)
    ensures HandlersKnowRows(Exec(acts))
  {
    if acts != [] {
      ReachableRows(acts[..|acts| - 1]);
      StepKeepsRows(Exec(acts[..|acts| - 1]), acts[|acts| - 1]);
    }
  }

  /**
   * Under any interleaving, the unused tokens of a family and its refreshes between
   * mark-used and issue number at most one.
   */
  lemma {:induction false} AtMostOneBranch(acts: seq<Act>, fam: Family)
    ensures |Unused(Exec(acts), fam)| + |IssuingOn(Exec(acts), fam)| <= 1
  {
    if acts == [] {
      assert Unused(Start(), fam) == {} && IssuingOn(Start(), fam) == {};
    } else {
      var s, a := Exec(acts[..|acts| - 1]), acts[|acts| - 1];
      AtMostOneBranch(acts[..|acts| - 1], fam);
      ReachableRows(acts[..|acts| - 1]);
      assert Exec(acts) == Step(s, a);
      match a
      case Mark(tid, now, o) =>
        if tid in s.handlers && s.handlers[tid].Marking? { MarkMoves(s, tid, now, o, fam); }
      case Issue(tid, minted, expires, o) =>
        if tid in s.handlers && s.handlers[tid].Issuing? { IssueMoves(s, tid, minted, expires, o, fam); }
      case _ => OtherStepsMove(s, a, fam);
    }
  }

  // ---- single use ----

  /** No token has two successors. */
  ghost predicate DistinctParents(t: Tokens)
  {
    forall a, b :: a in t && b in t && a != b && t[a].parent.Some? ==> t[a].parent != t[b].parent
  }

  ghost predicate ParentsAreUsed(t: Tokens)
  {
    forall a :: a in t && t[a].parent.Some? ==> t[a].parent.value in t && t[t[a].parent.value].usedAt.Some?
  }

  /** A pending issue is the only one from its token, which has no successor yet. */
  ghost predicate PendingIsFirst(s: Sys)
  {
    && (forall t, a :: t in s.handlers && a in s.tokens && s.handlers[t].Issuing? ==>
          s.tokens[a].parent != Some(s.handlers[t].id))
    && (forall t, u :: t in s.handlers && u in s.handlers && t != u && s.handlers[t].Issuing? && s.handlers[u].Issuing? ==>
          s.handlers[t].id != s.handlers[u].id)
  }

  /** Each token was exchanged at most once: its successors and its pending issues number at most one. */
  ghost predicate SingleUse(s: Sys)
  {
    DistinctParents(s.tokens) && ParentsAreUsed(s.tokens) && PendingIsFirst(s)
  }

  lemma MarkKeepsSingleUse(s: Sys, tid: Tid, now: Time, o: Outcome)
    requires HandlersKnowRows(s) && SingleUse(s) && tid in s.handlers && s.handlers[tid].Marking?
    ensures SingleUse(Marks(s, tid, now, o))
  {
    var t := Marks(s, tid, now, o);
    assert t.tokens.Keys == s.tokens.Keys;
    assert forall a :: a in t.tokens ==> t.tokens[a].parent == s.tokens[a].parent;
  }

  lemma IssueKeepsSingleUse(s: Sys, tid: Tid, minted: TokenId, expires: Time, o: Outcome)
    requires HandlersKnowRows(s) && SingleUse(s) && tid in s.handlers && s.handlers[tid].Issuing?
    ensures SingleUse(Issues(s, tid, minted, expires, o))
  {
  }

  lemma RevokeKeepsSingleUse(s: Sys, tid: Tid, now: Time, o: Outcome)
    requires SingleUse(s) && tid in s.handlers && s.handlers[tid].Revoking?
    ensures SingleUse(Revokes(s, tid, now, o))
  {
    var t := Revokes(s, tid, now, o);
    assert t.tokens.Keys == s.tokens.Keys;
    assert forall a :: a in t.tokens ==> t.tokens[a].parent == s.tokens[a].parent && t.tokens[a].usedAt == s.tokens[a].usedAt;
  }

  lemma OthersKeepSingleUse(s: Sys, a: Act)
    requires HandlersKnowRows(s) && SingleUse(s) && !a.Mark? && !a.Issue? && !a.Revoke?
    ensures SingleUse(Step(s, a))
  {
  }

  lemma StepKeepsSingleUse(s: Sys, a: Act)
    requires HandlersKnowRows(s) && SingleUse(s)
    ensures SingleUse(Step(s, a))
  {
    hide SingleUse, HandlersKnowRows;
    match a
    case Mark(tid, now, o) =>
      if tid in s.handlers && s.handlers[tid].Marking? { MarkKeepsSingleUse(s, tid, now, o); }
    case Issue(tid, minted, expires, o) =>
      if tid in s.handlers && s.handlers[tid].Issuing? { IssueKeepsSingleUse(s, tid, minted, expires, o); }
    case Revoke(tid, now, o) =>
      if tid in s.handlers && s.handlers[tid].Revoking? { RevokeKeepsSingleUse(s, tid, now, o); }
    case _ => OthersKeepSingleUse(s, a);
  }

  /** A refresh token is exchanged for at most one successor, whatever the interleaving: families are chains. */
  lemma {:induction false} FamiliesAreChains(acts: seq<Act>)
    ensures SingleUse(Exec(acts))
  {
    if acts != [] {
      FamiliesAreChains(acts[..|acts| - 1]);
      ReachableRows(acts[..|acts| - 1]);
      StepKeepsSingleUse(Exec(acts[..|acts| - 1]), acts[|acts| - 1]);
    }
  }

  // ---- revocation ----

  predicate FamilyRevoked(t: Tokens, fam: Family)
  {
    forall id :: id in t && t[id].family == fam ==> t[id].revokedAt.Some?
  }

  /** A refresh already past its lookup that can still mint a token on the family. */
  predicate CanStillIssue(s: Sys, fam: Family, tid: Tid)
  {
    && tid in s.handlers && !s.handlers[tid].Revoking? && s.handlers[tid].fam == fam
    && (s.handlers[tid].Marking? ==> s.handlers[tid].id in s.tokens && s.tokens[s.handlers[tid].id].usedAt.None?)
  }

  ghost predicate Dead(s: Sys, fam: Family)
  {
    && FamilyRevoked(s.tokens, fam) && (forall tid :: !CanStillIssue(s, fam, tid))
    && exists id :: id in s.tokens && s.tokens[id].family == fam
  }

  function FamilyTokens(s: Sys, fam: Family): set<TokenId>
  {
    set id | id in s.tokens && s.tokens[id].family == fam
  }

  lemma StepKeepsFamily(s: Sys, a: Act, fam: Family)
    requires Dead(s, fam)
    ensures FamilyRevoked(Step(s, a).tokens, fam) && FamilyTokens(Step(s, a), fam) == FamilyTokens(s, fam)
  {
    hide HandlersKnowRows;
    if a.Issue? {
      assert !CanStillIssue(s, fam, a.tid);
    }
  }

  lemma StepAddsNoIssuer(s: Sys, a: Act, fam: Family, tid: Tid)
    requires HandlersKnowRows(s) && Dead(s, fam)
    ensures !CanStillIssue(Step(s, a), fam, tid)
  {
    hide FreshFamily;
    assert !CanStillIssue(s, fam, tid);
  }

  lemma StepKeepsDead(s: Sys, a: Act, fam: Family)
    requires HandlersKnowRows(s) && Dead(s, fam)
    ensures Dead(Step(s, a), fam) && FamilyTokens(Step(s, a), fam) == FamilyTokens(s, fam)
  {
    hide Step, CanStillIssue, FamilyRevoked;
    StepKeepsFamily(s, a, fam);
    forall tid ensures !CanStillIssue(Step(s, a), fam, tid) {
      StepAddsNoIssuer(s, a, fam, tid);
    }
    var id :| id in s.tokens && s.tokens[id].family == fam;
    assert id in FamilyTokens(s, fam);
  }

  /** A dead family stays dead: no later request on it ever yields a token. */
  lemma {:induction false} DeadForever(s: Sys, acts: seq<Act>, fam: Family)
    requires HandlersKnowRows(s) && Dead(s, fam)
    ensures HandlersKnowRows(Continue(s, acts)) && Dead(Continue(s, acts), fam)
    ensures FamilyTokens(Continue(s, acts), fam) == FamilyTokens(s, fam)
  {
    if acts != [] {
      DeadForever(s, acts[..|acts| - 1], fam);
      StepKeepsRows(Continue(s, acts[..|acts| - 1]), acts[|acts| - 1]);
      StepKeepsDead(Continue(s, acts[..|acts| - 1]), acts[|acts| - 1], fam);
    }
  }

  lemma ContinueOne(s: Sys, a: Act)
    ensures Continue(s, [a]) == Step(s, a)
  {
    assert [a][..0] == [];
    assert Continue(s, []) == s;
  }

  lemma ContinueTwo(s: Sys, a: Act, b: Act)
    ensures Continue(s, [a, b]) == Step(Step(s, a), b)
  {
    ContinueOne(s, a);
    assert [a, b][..1] == [a];
  }

  /** A refresh past its lookup can bring a revoked family back to life. */
  lemma InFlightResurrects(s: Sys, fam: Family, tid: Tid) returns (acts: seq<Act>)
    requires HandlersKnowRows(s) && CanStillIssue(s, fam, tid)
    ensures !FamilyRevoked(Continue(s, acts).tokens, fam)
  {
    var minted := UnusedNat(s.tokens.Keys);
    var issue := Issue(tid, minted, 0, Succeeds);
    if s.handlers[tid].Issuing? {
      acts := [issue];
      ContinueOne(s, issue);
      assert minted in Step(s, issue).tokens && Step(s, issue).tokens[minted].revokedAt.None?;
    } else {
      var mark := Mark(tid, 0, Succeeds);
      acts := [mark, issue];
      ContinueTwo(s, mark, issue);
      var t := Step(s, mark);
      assert t.handlers[tid] == Issuing(s.handlers[tid].id, fam) && t.tokens.Keys == s.tokens.Keys;
      assert minted in Step(t, issue).tokens && Step(t, issue).tokens[minted].revokedAt.None?;
    }
  }

  /**
   * When revocation is final. In a reachable state where a whole (non-empty) family
   * has been revoked, it stays revoked in every continuation if and only if no refresh
   * that already passed its lookup can still mark or issue.
   */
  lemma RevocationIsFinalIff(history: seq<Act>, fam: Family)
    requires FamilyRevoked(Exec(history).tokens, fam) && FamilyTokens(Exec(history), fam) != {}
    ensures (forall acts :: FamilyRevoked(Continue(Exec(history), acts).tokens, fam))
       <==> (forall tid :: !CanStillIssue(Exec(history), fam, tid))
  {
    var s := Exec(history);
    ReachableRows(history);
    var id :| id in FamilyTokens(s, fam);
    if forall tid :: !CanStillIssue(s, fam, tid) {
      forall acts ensures FamilyRevoked(Continue(s, acts).tokens, fam) {
        DeadForever(s, acts, fam);
      }
    } else {
      var tid :| CanStillIssue(s, fam, tid);
      var acts := InFlightResurrects(s, fam, tid);
      assert !FamilyRevoked(Continue(s, acts).tokens, fam);
    }
  }

  lemma ExecOne(acts: seq<Act>, a: Act)
    ensures Exec(acts + [a]) == Step(Exec(acts), a)
  {
    assert (acts + [a])[..|acts|] == acts;
  }

  lemma OneMarked(fam: Family, now: Time, expires: Time)
    requires now <= expires
    ensures Exec([Login(0, fam, expires), BeginRefresh(1, 0, now), Mark(1, now, Succeeds)])
         == Sys(map[0 := Token(fam, expires, Some(now), None, None)], map[1 := Issuing(0, fam)])
  {
    var a, b, c := Login(0, fam, expires), BeginRefresh(1, 0, now), Mark(1, now, Succeeds);
    assert Exec([]) == Start();
    ExecOne([], a);
    ExecOne([a], b);
    ExecOne([a, b], c);
    hide Exec, Continue;
    var row := Token(fam, expires, None, None, None);
    assert [] + [a] == [a] && [a] + [b] == [a, b] && [a, b] + [c] == [a, b, c];
    assert Exec([a]) == Sys(map[0 := row], map[]);
    assert Exec([a, b]) == Sys(map[0 := row], map[1 := Marking(0, fam)]);
  }

  lemma ThenRevoked(fam: Family, now: Time, expires: Time)
    ensures
      var s := Sys(map[0 := Token(fam, expires, Some(now), None, None)], map[1 := Issuing(0, fam)]);
      Step(Step(s, BeginRefresh(2, 0, now)), Revoke(2, now, Succeeds))
        == Sys(map[0 := Token(fam, expires, Some(now), Some(now), None)], map[1 := Issuing(0, fam)])
  {
    var s := Sys(map[0 := Token(fam, expires, Some(now), None, None)], map[1 := Issuing(0, fam)]);
    var t := Step(s, BeginRefresh(2, 0, now));
    assert t == Goto(s, 2, Revoking(fam));
    assert t.handlers - {2} == s.handlers;
  }

  /**
   * Such a state is reached: one refresh has marked the token and not yet issued its successor when a second request
   * presents the same token and has the family revoked.
   */
  lemma RevocationIsOutrun(fam: Family, now: Time, expires: Time, minted: TokenId)
    requires now <= expires && minted != 0
    ensures
      var s := Exec([Login(0, fam, expires), BeginRefresh(1, 0, now), Mark(1, now, Succeeds),
                     BeginRefresh(2, 0, now), Revoke(2, now, Succeeds)]);
      && FamilyRevoked(s.tokens, fam) && FamilyTokens(s, fam) == {0} && CanStillIssue(s, fam, 1)
      && !FamilyRevoked(Step(s, Issue(1, minted, expires, Succeeds)).tokens, fam)
  {
    var first := [Login(0, fam, expires), BeginRefresh(1, 0, now), Mark(1, now, Succeeds)];
    var d, e := BeginRefresh(2, 0, now), Revoke(2, now, Succeeds);
    OneMarked(fam, now, expires);
    ExecOne(first, d);
    ExecOne(first + [d], e);
    ThenRevoked(fam, now, expires);
    assert first + [d] + [e]
        == [Login(0, fam, expires), BeginRefresh(1, 0, now), Mark(1, now, Succeeds), d, e];
    hide Exec, Continue, Begin, Revokes, Marks;
    var s := Sys(map[0 := Token(fam, expires, Some(now), Some(now), None)], map[1 := Issuing(0, fam)]);
    assert FamilyTokens(s, fam) == {0};
    var t := Step(s, Issue(1, minted, expires, Succeeds)).tokens;
    assert minted in t && t[minted].revokedAt.None? && t[minted].family == fam;
  }

  // ---- the handlers run on their own ----

  /** How each call of one handler ends; `issue` stands for every call from the user lookup to the insert. */
  datatype Calls = Calls(lookup: bool, mark: Outcome, issue: Outcome, revoke: Outcome)

  datatype Request = RefreshReq(id: TokenId, minted: TokenId, now: Time, ttl: Time) | LogoutReq(id: TokenId, now: Time)

  datatype Reply = Unauthorized | Granted(id: TokenId) | InternalError | NoContent

  function RevokeCall(t: Tokens, fam: Family, now: Time, o: Outcome): Tokens
  {
    if o == FailsBefore then t else RevokeFamily(t, fam, now)
  }

  /** The exchange of a usable token: mark it, then mint its successor. */
  function Exchange(t: Tokens, id: TokenId, minted: TokenId, now: Time, ttl: Time, c: Calls): (Tokens, Reply)
    requires id in t
  {
    if c.mark == FailsBefore then (t, InternalError)
    else
      var marked := MarkUsed(t, id, now);
      if c.mark != Succeeds || c.issue == FailsBefore then (marked, InternalError)
      else
        (CreateToken(marked, minted, t[id].family, now + ttl, Some(id)),
         if c.issue == Succeeds then Granted(minted) else InternalError)
  }

  /** One handler, run without interruption. */
  function Serve(t: Tokens, q: Request, c: Calls): (Tokens, Reply)
  {
    if !c.lookup then (t, InternalError)
    else match q
      case LogoutReq(id, now) =>
        if id !in t then (t, NoContent)
        else (RevokeCall(t, t[id].family, now, c.revoke), if c.revoke == Succeeds then NoContent else InternalError)
      case RefreshReq(id, minted, now, ttl) =>
        if id !in t || minted in t then (t, Unauthorized)
        else match Decide(t[id], now)
          case Usable => Exchange(t, id, minted, now, ttl, c)
          case Reused =>
            (RevokeCall(t, t[id].family, now, c.revoke), if c.revoke == Succeeds then Unauthorized else InternalError)
          case _ => (t, Unauthorized)
  }

  /** Every row of the family that was live is revoked as of now, and nothing else has changed. */
  predicate LiveRowsRevoked(before: Tokens, after: Tokens, fam: Family, now: Time)
  {
    && after.Keys == before.Keys
    && forall k :: k in before ==>
         after[k] == if before[k].family == fam && before[k].revokedAt.None?
                     then before[k].(revokedAt := Some(now)) else before[k]
  }

  /** The token table behind the handlers. */
  class AuthServer {
    var tokens: Tokens

    constructor ()
      ensures tokens == map[]
    {
      tokens := map[];
    }

    /** UPDATE ... WHERE id = $1 AND used_at IS NULL; it may fail before or after it takes effect. */
    method MarkRefreshTokenUsed(id: TokenId, now: Time, o: Outcome) returns (ok: bool)
      modifies this
      ensures tokens == if o == FailsBefore then old(tokens) else MarkUsed(old(tokens), id, now)
      ensures tokens == if o != FailsBefore && id in old(tokens) && old(tokens)[id].usedAt.None?
                        then old(tokens)[id := old(tokens)[id].(usedAt := Some(now))] else old(tokens)
      ensures ok <==> o == Succeeds && id in old(tokens) && old(tokens)[id].usedAt.None?
    {
      if o == FailsBefore {
        return false;
      }
      ok := id in tokens && tokens[id].usedAt.None?;
      if ok {
        tokens := tokens[id := tokens[id].(usedAt := Some(now))];
      }
      ok := ok && o == Succeeds;
    }

    method RevokeRefreshFamily(fam: Family, now: Time, o: Outcome) returns (ok: bool)
      modifies this
      ensures tokens == RevokeCall(old(tokens), fam, now, o)
      ensures o == FailsBefore ==> tokens == old(tokens)
      ensures o != FailsBefore ==>
        && tokens.Keys == old(tokens).Keys
        && forall k :: k in tokens ==>
             tokens[k] == if old(tokens)[k].family == fam && old(tokens)[k].revokedAt.None?
                          then old(tokens)[k].(revokedAt := Some(now)) else old(tokens)[k]
      ensures ok <==> o == Succeeds
    {
      if o != FailsBefore {
        tokens := RevokeFamily(tokens, fam, now);
      }
      ok := o == Succeeds;
    }

    method HandleRefresh(id: TokenId, minted: TokenId, now: Time, ttl: Time, c: Calls) returns (r: Reply)
      requires minted !in tokens
      modifies this
      ensures (tokens, r) == Serve(old(tokens), RefreshReq(id, minted, now, ttl), c)
      ensures r.Granted? <==>
        && id in old(tokens) && old(tokens)[id].revokedAt.None? && old(tokens)[id].usedAt.None?
        && now <= old(tokens)[id].expiresAt && c.lookup && c.mark == Succeeds && c.issue == Succeeds
      ensures r.Granted? ==> r.id == minted
      ensures r.Granted? ==>
        tokens == old(tokens)[id := old(tokens)[id].(usedAt := Some(now))]
                             [minted := Token(old(tokens)[id].family, now + ttl, None, None, Some(id))]
      ensures !c.lookup ==> r == InternalError && tokens == old(tokens)
      ensures c.lookup && (id !in old(tokens) || old(tokens)[id].revokedAt.Some?) ==>
        r == Unauthorized && tokens == old(tokens)
      ensures c.lookup && id in old(tokens) && old(tokens)[id].revokedAt.None? && old(tokens)[id].usedAt.Some? ==>
        && r == (if c.revoke == Succeeds then Unauthorized else InternalError)
        && (if c.revoke == FailsBefore then tokens == old(tokens)
            else LiveRowsRevoked(old(tokens), tokens, old(tokens)[id].family, now))
      ensures c.lookup && id in old(tokens) && old(tokens)[id].revokedAt.None? && old(tokens)[id].usedAt.None? ==>
        now > old(tokens)[id].expiresAt ==> r == Unauthorized && tokens == old(tokens)
    {
      if !c.lookup {
        return InternalError;
      }
      if id !in tokens {
        return Unauthorized;
      }
      var row := tokens[id];
      if row.revokedAt.Some? {
        return Unauthorized;
      }
      if row.usedAt.Some? {
        var revoked := RevokeRefreshFamily(row.family, now, c.revoke);
        return if revoked then Unauthorized else InternalError;
      }
      if now > row.expiresAt {
        return Unauthorized;
      }
      var ok := MarkRefreshTokenUsed(id, now, c.mark);
      if !ok || c.issue == FailsBefore {
        return InternalError;
      }
      tokens := CreateToken(tokens, minted, row.family, now + ttl, Some(id));
      return if c.issue == Succeeds then Granted(minted) else InternalError;
    }

    method HandleLogout(id: TokenId, now: Time, c: Calls) returns (r: Reply)
      modifies this
      ensures (tokens, r) == Serve(old(tokens), LogoutReq(id, now), c)
    {
      if !c.lookup {
        return InternalError;
      }
      if id in tokens {
        var revoked := RevokeRefreshFamily(tokens[id].family, now, c.revoke);
        if !revoked {
          return InternalError;
        }
      }
      return NoContent;
    }
  }

  /**
   * A refresh is granted exactly when its row is neither revoked nor used, is not past its expiry, and every call
   * succeeds. Then the row is used and one new row is there: in the same family, unused, live, and expiring a
   * lifetime from now.
   */
  lemma GrantedIff(t: Tokens, id: TokenId, minted: TokenId, now: Time, ttl: Time, c: Calls)
    requires minted !in t
    ensures var r := Serve(t, RefreshReq(id, minted, now, ttl), c);
      && (r.1.Granted? <==> id in t && t[id].revokedAt.None? && t[id].usedAt.None? && now <= t[id].expiresAt
                            && c.lookup && c.mark == Succeeds && c.issue == Succeeds)
      && (r.1.Granted? ==>
            && r.1.id == minted
            && r.0 == t[id := t[id].(usedAt := Some(now))]
                       [minted := Token(t[id].family, now + ttl, None, None, Some(id))])
      && (minted in r.0 && !r.1.Granted? ==> c.issue == FailsAfter)
  {
  }

  /** An unknown, a revoked and an expired unused token are refused without a trace. */
  lemma RefusalsChangeNothing(t: Tokens, id: TokenId, minted: TokenId, now: Time, ttl: Time, c: Calls)
    requires minted !in t && c.lookup
    requires id !in t || t[id].revokedAt.Some? || (t[id].usedAt.None? && now > t[id].expiresAt)
    ensures Serve(t, RefreshReq(id, minted, now, ttl), c) == (t, Unauthorized)
  {
  }

  /** Each uninterrupted handler is a run of the interleaved steps, begun and finished by one thread. */
  function StepsOf(tid: Tid, q: Request, c: Calls): seq<Act>
  {
    if !c.lookup then []
    else match q
      case LogoutReq(id, now) => [BeginLogout(tid, id), Revoke(tid, now, c.revoke)]
      case RefreshReq(id, minted, now, ttl) =>
        [BeginRefresh(tid, id, now), Mark(tid, now, c.mark), Issue(tid, minted, now + ttl, c.issue), Revoke(tid, now, c.revoke)]
  }

  lemma ContinueFour(s: Sys, a: Act, b: Act, c: Act, d: Act)
    ensures Continue(s, [a, b, c, d]) == Step(Step(Step(Step(s, a), b), c), d)
  {
    ContinueTwo(s, a, b);
    assert [a, b, c, d][..3] == [a, b, c] && [a, b, c][..2] == [a, b];
  }

  lemma LogoutIsARun(t: Tokens, tid: Tid, id: TokenId, now: Time, c: Calls)
    requires c.lookup
    ensures Step(Step(Sys(t, map[]), BeginLogout(tid, id)), Revoke(tid, now, c.revoke))
         == Sys(Serve(t, LogoutReq(id, now), c).0, map[])
  {
    if id in t {
      assert map[][tid := Revoking(t[id].family)] - {tid} == map[];
    }
  }

  lemma RefreshIsARun(t: Tokens, tid: Tid, q: Request, c: Calls)
    requires c.lookup && q.RefreshReq? && q.minted !in t
    ensures Step(Step(Step(Step(Sys(t, map[]), BeginRefresh(tid, q.id, q.now)), Mark(tid, q.now, c.mark)),
                      Issue(tid, q.minted, q.now + q.ttl, c.issue)), Revoke(tid, q.now, c.revoke))
         == Sys(Serve(t, q, c).0, map[])
  {
    if q.id in t {
      var fam := t[q.id].family;
      assert map[][tid := Revoking(fam)] - {tid} == map[];
      assert map[][tid := Marking(q.id, fam)] - {tid} == map[];
      assert map[][tid := Marking(q.id, fam)][tid := Issuing(q.id, fam)] - {tid} == map[];
    }
  }

  lemma AtomicHandlerIsARun(t: Tokens, tid: Tid, q: Request, c: Calls)
    requires q.RefreshReq? ==> q.minted !in t
    ensures Continue(Sys(t, map[]), StepsOf(tid, q, c)) == Sys(Serve(t, q, c).0, map[])
  {
    var s := Sys(t, map[]);
    if c.lookup {
      hide Step, Serve;
      match q
      case LogoutReq(id, now) =>
        ContinueTwo(s, BeginLogout(tid, id), Revoke(tid, now, c.revoke));
        LogoutIsARun(t, tid, id, now, c);
      case RefreshReq(id, minted, now, ttl) =>
        ContinueFour(s, BeginRefresh(tid, id, now), Mark(tid, now, c.mark), Issue(tid, minted, now + ttl, c.issue),
                     Revoke(tid, now, c.revoke));
        RefreshIsARun(t, tid, q, c);
    }
  }

  /** Handlers one at a time, each with its own failures. */
  function ServeAll(t: Tokens, qs: seq<(Request, Calls)>): Tokens
  {
    if qs == [] then t
    else Serve(ServeAll(t, qs[..|qs| - 1]), qs[|qs| - 1].0, qs[|qs| - 1].1).0
  }

  lemma ServeKeepsRevoked(t: Tokens, q: Request, c: Calls, fam: Family)
    requires FamilyRevoked(t, fam)
    ensures FamilyRevoked(Serve(t, q, c).0, fam)
    ensures forall id :: id in Serve(t, q, c).0 && id !in t ==> Serve(t, q, c).0[id].family != fam
    ensures forall id :: id in t ==> id in Serve(t, q, c).0 && Serve(t, q, c).0[id].family == t[id].family
  {
  }

  /** With atomic handlers, one reuse or one logout ends the family: no later request ever adds a token to it. */
  lemma {:induction false} RevokedFamilyNeverGrants(t: Tokens, qs: seq<(Request, Calls)>, fam: Family)
    requires FamilyRevoked(t, fam)
    ensures FamilyRevoked(ServeAll(t, qs), fam)
    ensures forall id :: id in ServeAll(t, qs) && id !in t ==> ServeAll(t, qs)[id].family != fam
    ensures forall id :: id in t ==> id in ServeAll(t, qs) && ServeAll(t, qs)[id].family == t[id].family
  {
    hide Serve, FamilyRevoked;
    if qs != [] {
      RevokedFamilyNeverGrants(t, qs[..|qs| - 1], fam);
      ServeKeepsRevoked(ServeAll(t, qs[..|qs| - 1]), qs[|qs| - 1].0, qs[|qs| - 1].1, fam);
    }
  }

  /**
   * Presenting a used token of a live row, or logging out with any token, revokes the live rows of its whole family
   * and changes nothing else, unless the calls fail first; and what it is answered with.
   */
  lemma ReuseRevokesTheFamily(t: Tokens, id: TokenId, minted: TokenId, now: Time, ttl: Time, c: Calls)
    requires id in t && minted !in t && c.lookup && c.revoke != FailsBefore
    ensures t[id].usedAt.Some? && t[id].revokedAt.None? ==>
              var r := Serve(t, RefreshReq(id, minted, now, ttl), c);
              && FamilyRevoked(r.0, t[id].family) && LiveRowsRevoked(t, r.0, t[id].family, now)
              && r.1 == if c.revoke == Succeeds then Unauthorized else InternalError
    ensures var r := Serve(t, LogoutReq(id, now), c);
      && FamilyRevoked(r.0, t[id].family) && LiveRowsRevoked(t, r.0, t[id].family, now)
      && r.1 == if c.revoke == Succeeds then NoContent else InternalError
  {
  }
}
