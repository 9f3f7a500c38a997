/** What every interleaving of alliance commands keeps, when the rest is kept, and what a run's history
    must contain. */
module AllianceLaws {
  import opened Economy
  import opened Options
  import opened Alliances

  // ------------------------------------------------------------------ the tables

  /** The foreign keys: members, invitations and pacts are of live alliances. */
  ghost predicate Referenced(s: State) {
    && (forall p :: p in s.members ==> s.members[p].alliance in s.alliances)
    && (forall i :: i in s.invites ==> i.0 in s.alliances)
    && (forall k :: k in s.pacts ==> k.0 in s.alliances && k.1 in s.alliances)
    && (forall a :: a in s.alliances ==> a < s.nextId)
  }

  /** A founder holds every right, and a plain member none. */
  ghost predicate RanksSound(s: State) {
    forall p :: p in s.members ==>
      && (s.members[p].role == Founder ==> s.members[p].rights == ALL_RIGHTS)
      && (s.members[p].role == Member ==> s.members[p].rights == {})
  }

  ghost predicate WithinCap(s: State, cap: nat) {
    forall a :: a in s.alliances ==> |Roster(s, a)| <= Max(cap, 1)
  }

  /** Names and tags are unique. */
  ghost predicate Named(s: State) {
    forall a, b :: a in s.alliances && b in s.alliances && a != b ==>
      s.alliances[a].name != s.alliances[b].name && s.alliances[a].tag != s.alliances[b].tag
  }

  ghost predicate PactSound(k: (nat, nat), p: Pact) {
    && k.0 < k.1
    && (p.stance == War ==> p.phase == Active)
    && (p.proposedBy.Some? <==> p.stance == Confederation && p.phase == Proposed)
    && (p.proposedBy.Some? ==> p.proposedBy.value == k.0 || p.proposedBy.value == k.1)
  }

  /** Pacts are between two different alliances; the proposer is one of the pair, and present exactly
      while a confederation is pending. */
  ghost predicate PactsSound(s: State) {
    forall k :: k in s.pacts ==> PactSound(k, s.pacts[k])
  }

  ghost predicate KeysSound(s: State) { Referenced(s) && RanksSound(s) && Named(s) && PactsSound(s) }

  ghost predicate TablesSound(s: State, cap: nat) { KeysSound(s) && WithinCap(s, cap) }

  /** What the checks see to before a write is issued. */
  ghost predicate WriteSound(w: Write) {
    match w
    case SetMemberRole(_, _, role, rights) => role != Founder && (role == Member ==> rights == {})
    case TransferFounder(_, from, target) => from != target
    case SetPact(a, b, pact) => a != b && PactSound(Pair(a, b), pact)
    case _ => true
  }

  ghost predicate SessionsSound(d: Desk) {
    forall sid :: sid in d.sessions && d.sessions[sid].Ready? ==> WriteSound(d.sessions[sid].write)
  }

  ghost predicate DeskSound(d: Desk, cap: nat) { TablesSound(d.tables, cap) && SessionsSound(d) }

  lemma {:induction false} SubsetIsNotLarger(a: set<nat>, b: set<nat>)
    requires a <= b
    ensures |a| <= |b|
  {
    if a != {} {
      var x :| x in a;
      SubsetIsNotLarger(a - {x}, b - {x});
    }
  }

  lemma CapAfterShrinking(s: State, t: State, cap: nat)
    requires WithinCap(s, cap) && t.alliances.Keys <= s.alliances.Keys
    requires forall p :: p in t.members ==> p in s.members && s.members[p].alliance == t.members[p].alliance
    ensures WithinCap(t, cap)
  {
    forall a | a in t.alliances ensures |Roster(t, a)| <= Max(cap, 1) {
      SubsetIsNotLarger(Roster(t, a), Roster(s, a));
    }
  }

  lemma CapAfterGaining(s: State, t: State, p: nat, m: Membership, cap: nat)
    requires WithinCap(s, cap) && p !in s.members && t.alliances.Keys <= s.alliances.Keys + {m.alliance}
    requires t.members == s.members[p := m]
    requires |Roster(s, m.alliance)| < Max(cap, 1)
    ensures WithinCap(t, cap)
  {
    forall b | b in t.alliances ensures |Roster(t, b)| <= Max(cap, 1) {
      if b == m.alliance {
        assert Roster(t, b) == Roster(s, b) + {p};
      } else {
        assert Roster(t, b) == Roster(s, b);
      }
    }
  }

  lemma CreationIsSound(s: State, r: Rules, w: Write)
    requires TablesSound(s, r.maxMembers) && w.CreateAlliance? && WriteError(s, r, w).None?
    ensures TablesSound(Written(s, r, w), r.maxMembers)
  {
    assert Roster(s, s.nextId) == {};
    CapAfterGaining(s, Written(s, r, w), w.founder, Membership(s.nextId, Founder, ALL_RIGHTS), r.maxMembers);
  }

  lemma JoiningIsSound(s: State, r: Rules, w: Write)
    requires TablesSound(s, r.maxMembers) && w.AddMember? && WriteError(s, r, w).None?
    ensures TablesSound(Written(s, r, w), r.maxMembers)
  {
    CapAfterGaining(s, Written(s, r, w), w.player, Membership(w.alliance, Member, {}), r.maxMembers);
  }

  lemma KeysAfterRoleWrite(s: State, a: nat, target: nat, role: Role, rights: set<Right>)
    requires KeysSound(s) && (role == Founder ==> rights == ALL_RIGHTS) && (role == Member ==> rights == {})
    ensures KeysSound(WithRole(s, a, target, role, rights))
  {
  }

  lemma KeysAfterNaming(s: State, a: nat, founder: nat)
    requires KeysSound(s)
    ensures KeysSound(WithFounder(s, a, founder))
  {
  }

  lemma KeysAfterMemberWrite(s: State, r: Rules, w: Write)
    requires KeysSound(s) && WriteSound(w) && (w.RemoveMember? || w.SetMemberRole? || w.TransferFounder?)
    ensures KeysSound(Written(s, r, w))
  {
    match w
    case RemoveMember(_) =>
    case SetMemberRole(a, target, role, rights) => KeysAfterRoleWrite(s, a, target, role, rights);
    case TransferFounder(a, from, target) =>
      KeysAfterRoleWrite(s, a, from, Member, {});
      var demoted := WithRole(s, a, from, Member, {});
      KeysAfterRoleWrite(demoted, a, target, Founder, ALL_RIGHTS);
      KeysAfterNaming(WithRole(demoted, a, target, Founder, ALL_RIGHTS), a, target);
  }

  lemma KeysAfterErasure(s: State, a: nat)
    requires KeysSound(s)
    ensures KeysSound(Erased(s, a))
  {
  }

  lemma KeysAfterSideWrite(s: State, r: Rules, w: Write)
    requires KeysSound(s) && WriteSound(w)
    requires w.InsertInvite? || w.DeleteInvite? || w.SetPact? || w.ClearPact?
    ensures KeysSound(Written(s, r, w))
  {
  }

  /** Every write but a foundation and a joining moves nobody into an alliance. */
  lemma CapAfterOtherWrites(s: State, r: Rules, w: Write)
    requires WithinCap(s, r.maxMembers) && !w.CreateAlliance? && !w.AddMember?
    ensures WithinCap(Written(s, r, w), r.maxMembers)
  {
    CapAfterShrinking(s, Written(s, r, w), r.maxMembers);
  }

  lemma WriteIsSound(s: State, r: Rules, w: Write)
    requires TablesSound(s, r.maxMembers) && WriteSound(w)
    ensures TablesSound(Written(s, r, w), r.maxMembers)
  {
    if w.CreateAlliance? {
      if WriteError(s, r, w).None? { CreationIsSound(s, r, w); }
    } else if w.AddMember? {
      if WriteError(s, r, w).None? { JoiningIsSound(s, r, w); }
    } else {
      CapAfterOtherWrites(s, r, w);
      if w.RemoveMember? || w.SetMemberRole? || w.TransferFounder? {
        KeysAfterMemberWrite(s, r, w);
      } else if w.DeleteAlliance? {
        KeysAfterErasure(s, w.alliance);
      } else {
        KeysAfterSideWrite(s, r, w);
      }
    }
  }

  lemma CheckedWritesAreSound(s: State, r: Rules, c: Command, me: Option<Membership>, invited: bool)
    requires PactsSound(s) && Checked(s, r, c, me, invited).Pass?
    ensures WriteSound(Checked(s, r, c, me, invited).write)
  {
    if c.SetDiplomacy? {
      var mine := me.value.alliance;
      assert PactOf(s, mine, c.other).Some? ==> PactSound(Pair(mine, c.other), s.pacts[Pair(mine, c.other)]);
    }
  }

  lemma StepIsSound(d: Desk, r: Rules, op: Op)
    requires DeskSound(d, r.maxMembers)
    ensures DeskSound(Step(d, r, op), r.maxMembers)
  {
    match op
    case Look(_, _) =>
    case Check(sid) =>
      if sid in d.sessions && d.sessions[sid].Looked? {
        var s := d.sessions[sid];
        if Checked(d.tables, r, s.command, s.me, s.invited).Pass? {
          CheckedWritesAreSound(d.tables, r, s.command, s.me, s.invited);
        }
      }
    case Commit(sid) =>
      if sid in d.sessions && d.sessions[sid].Ready? { WriteIsSound(d.tables, r, d.sessions[sid].write); }
  }

  /** Whatever runs between checks and writes: no alliance is over its cap, names and tags are unique,
      plain members hold no rights and founders all, pacts are well-formed and between live alliances. */
  lemma {:induction false} EveryRunKeepsTheTables(r: Rules, ops: seq<Op>, k: nat)
    requires k <= |ops|
    ensures DeskSound(At(r, ops, k), r.maxMembers)
  {
    if k > 0 {
      EveryRunKeepsTheTables(r, ops, k - 1);
      StepIsSound(At(r, ops, k - 1), r, ops[k - 1]);
    }
  }

  // ------------------------------------------------------------------ one founder

  /** Each live alliance has a founder among its members, the one its row names and no other. */
  ghost predicate OneFounder(s: State) {
    && (forall p :: p in s.members && s.members[p].alliance in s.alliances ==>
          (s.members[p].role == Founder <==> s.alliances[s.members[p].alliance].founder == p))
    && (forall a :: a in s.alliances ==> IsIn(s, s.alliances[a].founder, a))
  }

  /** What the write must still find, as the checks had found it: the player it removes or the target of
      its role change is not the founder; and when an alliance is handed over, the taker is in it and
      the giver is still its founder (or the taker is already). */
  predicate Fits(s: State, w: Write) {
    match w
    case RemoveMember(p) => p in s.members ==> s.members[p].role != Founder
    case SetMemberRole(a, target, _, _) => IsIn(s, target, a) ==> s.members[target].role != Founder
    case TransferFounder(a, from, target) =>
      a in s.alliances ==> IsIn(s, target, a) && (s.alliances[a].founder == from || s.alliances[a].founder == target)
    case _ => true
  }

  lemma RemovalKeepsOneFounderIffItFits(s: State, r: Rules, w: Write)
    requires Referenced(s) && OneFounder(s) && w.RemoveMember?
    ensures OneFounder(Written(s, r, w)) <==> Fits(s, w)
  {
    var t := Written(s, r, w);
    if Fits(s, w) {
      forall a | a in t.alliances ensures IsIn(t, t.alliances[a].founder, a) {
        assert IsIn(s, s.alliances[a].founder, a);
      }
    } else {
      var a := s.members[w.player].alliance;
      assert t.alliances[a].founder == w.player && !IsIn(t, w.player, a);
    }
  }

  lemma RoleWriteKeepsOneFounderIffItFits(s: State, r: Rules, w: Write)
    requires Referenced(s) && OneFounder(s) && w.SetMemberRole? && WriteSound(w)
    ensures OneFounder(Written(s, r, w)) <==> Fits(s, w)
  {
    var t := Written(s, r, w);
    if Fits(s, w) {
      forall a | a in t.alliances ensures IsIn(t, t.alliances[a].founder, a) {
        assert IsIn(s, s.alliances[a].founder, a);
      }
    } else {
      assert t.alliances[w.alliance].founder == w.target && t.members[w.target].role != Founder;
    }
  }

  lemma HandingOverKeepsOneFounder(s: State, r: Rules, w: Write)
    requires Referenced(s) && OneFounder(s) && w.TransferFounder? && WriteSound(w) && Fits(s, w)
    ensures OneFounder(Written(s, r, w))
  {
    var t := Written(s, r, w);
    if w.alliance in s.alliances {
      forall a | a in t.alliances ensures IsIn(t, t.alliances[a].founder, a) {
        assert IsIn(s, s.alliances[a].founder, a);
      }
    }
  }

  lemma LateHandOverBreaksTheRule(s: State, r: Rules, w: Write)
    requires Referenced(s) && OneFounder(s) && w.TransferFounder? && WriteSound(w) && !Fits(s, w)
    ensures !OneFounder(Written(s, r, w))
  {
    var t := Written(s, r, w);
    var founder := s.alliances[w.alliance].founder;
    assert IsIn(s, founder, w.alliance);
    assert t.alliances[w.alliance].founder == w.target;
    if IsIn(s, w.target, w.alliance) {
      assert t.members[founder].role == Founder && founder != w.target;
    } else {
      assert !IsIn(t, w.target, w.alliance);
    }
  }

  lemma OtherWritesKeepOneFounder(s: State, r: Rules, w: Write)
    requires Referenced(s) && OneFounder(s)
    requires !(w.RemoveMember? || w.SetMemberRole? || w.TransferFounder?)
    ensures OneFounder(Written(s, r, w))
  {
    var t := Written(s, r, w);
    forall a | a in t.alliances ensures IsIn(t, t.alliances[a].founder, a) {
      if a in s.alliances { assert IsIn(s, s.alliances[a].founder, a); }
    }
  }

  /** A write leaves every alliance with exactly one founder if and only if it still fits. */
  lemma WriteKeepsOneFounderIffItFits(s: State, r: Rules, w: Write)
    requires Referenced(s) && OneFounder(s) && WriteSound(w)
    ensures OneFounder(Written(s, r, w)) <==> Fits(s, w)
  {
    if w.RemoveMember? {
      RemovalKeepsOneFounderIffItFits(s, r, w);
    } else if w.SetMemberRole? {
      RoleWriteKeepsOneFounderIffItFits(s, r, w);
    } else if w.TransferFounder? {
      if Fits(s, w) { HandingOverKeepsOneFounder(s, r, w); } else { LateHandOverBreaksTheRule(s, r, w); }
    } else {
      OtherWritesKeepOneFounder(s, r, w);
    }
  }

  predicate StepFits(d: Desk, op: Op) {
    op.Commit? && op.sid in d.sessions && d.sessions[op.sid].Ready? ==> Fits(d.tables, d.sessions[op.sid].write)
  }

  ghost predicate AllWritesFit(r: Rules, ops: seq<Op>, k: nat)
    requires k <= |ops|
  {
    k > 0 ==> StepFits(At(r, ops, k - 1), ops[k - 1]) && AllWritesFit(r, ops, k - 1)
  }

  ghost predicate OneFounderThroughout(r: Rules, ops: seq<Op>, k: nat)
    requires k <= |ops|
  {
    OneFounder(At(r, ops, k).tables) && (k > 0 ==> OneFounderThroughout(r, ops, k - 1))
  }

  /** Over every interleaving of commands: every alliance has exactly one founder all along if and only
      if every write of the run still finds what its checks had found. */
  lemma {:induction false} OneFounderIffWritesFit(r: Rules, ops: seq<Op>, k: nat)
    requires k <= |ops|
    ensures OneFounderThroughout(r, ops, k) <==> AllWritesFit(r, ops, k)
  {
    if k > 0 {
      OneFounderIffWritesFit(r, ops, k - 1);
      var d, op := At(r, ops, k - 1), ops[k - 1];
      EveryRunKeepsTheTables(r, ops, k - 1);
      if OneFounderThroughout(r, ops, k - 1) && op.Commit? && op.sid in d.sessions && d.sessions[op.sid].Ready? {
        WriteKeepsOneFounderIffItFits(d.tables, r, d.sessions[op.sid].write);
      }
    }
  }

  /** The founder of an alliance is its one and only. */
  lemma ExactlyOneFounder(r: Rules, ops: seq<Op>, k: nat, a: nat)
    requires k <= |ops| && AllWritesFit(r, ops, k) && a in At(r, ops, k).tables.alliances
    ensures var s := At(r, ops, k).tables;
            exists f :: f in s.members && s.members[f] == Membership(a, Founder, ALL_RIGHTS)
                        && forall g :: g in s.members && s.members[g].alliance == a && s.members[g].role == Founder ==> g == f
  {
    OneFounderIffWritesFit(r, ops, k);
    EveryRunKeepsTheTables(r, ops, k);
    var s := At(r, ops, k).tables;
    var f := s.alliances[a].founder;
    assert IsIn(s, f, a) && s.members[f] == Membership(a, Founder, ALL_RIGHTS);
  }

  /** What a command's checks say when nobody comes between them. */
  function CheckedAtOnce(s: State, r: Rules, c: Command): Verdict {
    Checked(s, r, c, MembershipOf(s, ActorOf(c)), c.Respond? && (c.alliance, c.actor) in s.invites)
  }

  lemma CheckedWriteFits(s: State, r: Rules, c: Command)
    requires OneFounder(s) && Referenced(s) && CheckedAtOnce(s, r, c).Pass?
    ensures Fits(s, CheckedAtOnce(s, r, c).write)
  {
  }

  /** A command nobody interrupts keeps everything: the tables, and one founder to each alliance. */
  lemma WholeCommandsKeepOneFounder(s: State, r: Rules, c: Command)
    requires TablesSound(s, r.maxMembers) && OneFounder(s)
    ensures TablesSound(Whole(s, r, c), r.maxMembers) && OneFounder(Whole(s, r, c))
  {
    var verdict := CheckedAtOnce(s, r, c);
    if verdict.Pass? {
      CheckedWritesAreSound(s, r, c, MembershipOf(s, ActorOf(c)), c.Respond? && (c.alliance, c.actor) in s.invites);
      CheckedWriteFits(s, r, c);
      WriteIsSound(s, r, verdict.write);
      WriteKeepsOneFounderIffItFits(s, r, verdict.write);
      if verdict.write.AddMember? {
        var uninvite := DeleteInvite(verdict.write.alliance, verdict.write.player);
        WriteIsSound(Written(s, r, verdict.write), r, uninvite);
        WriteKeepsOneFounderIffItFits(Written(s, r, verdict.write), r, uninvite);
      }
    }
  }

  function WholeRun(s: State, r: Rules, cs: seq<Command>): State
    decreases |cs|
  {
    if cs == [] then s else WholeRun(Whole(s, r, cs[0]), r, cs[1..])
  }

  /** So if commands never overlap, the tables and the one founder hold after any of them. */
  lemma {:induction false} RunsOfWholeCommandsAreSafe(s: State, r: Rules, cs: seq<Command>)
    requires TablesSound(s, r.maxMembers) && OneFounder(s)
    ensures TablesSound(WholeRun(s, r, cs), r.maxMembers) && OneFounder(WholeRun(s, r, cs))
    decreases |cs|
  {
    if cs != [] {
      WholeCommandsKeepOneFounder(s, r, cs[0]);
      RunsOfWholeCommandsAreSafe(Whole(s, r, cs[0]), r, cs[1..]);
    }
  }

  // Three writes that come too late.

  ghost predicate HasFounder(s: State, a: nat) { exists p :: IsIn(s, p, a) && s.members[p].role == Founder }

  /** The checks of a hand-over from `founder` to `target` pass. */
  predicate MayHandOver(s: State, r: Rules, founder: nat, target: nat, a: nat) {
    && CheckTransfer(s, founder, target, MembershipOf(s, founder)) == Pass(TransferFounder(a, founder, target))
    && a in s.alliances
  }

  lemma AfterTheHandOver(s: State, r: Rules, founder: nat, target: nat, a: nat)
    requires TablesSound(s, r.maxMembers) && OneFounder(s) && MayHandOver(s, r, founder, target, a)
    ensures var handed := Written(s, r, TransferFounder(a, founder, target));
            && a in handed.alliances && IsIn(handed, target, a)
            && forall p :: IsIn(handed, p, a) && handed.members[p].role == Founder ==> p == target
  {
  }

  /** A member checks out to leave, is handed the alliance, and then leaves: nobody is its founder. */
  lemma LeavingAfterTheHandOverLeavesNoFounder(s: State, r: Rules, founder: nat, target: nat, a: nat)
    requires TablesSound(s, r.maxMembers) && OneFounder(s) && MayHandOver(s, r, founder, target, a)
    ensures Checked(s, r, Leave(target), MembershipOf(s, target), false) == Pass(RemoveMember(target))
    ensures var handed := Written(s, r, TransferFounder(a, founder, target));
            var left := Written(handed, r, RemoveMember(target));
            a in left.alliances && !HasFounder(left, a)
  {
    AfterTheHandOver(s, r, founder, target, a);
    var handed := Written(s, r, TransferFounder(a, founder, target));
    var left := Written(handed, r, RemoveMember(target));
    forall p | IsIn(left, p, a) ensures left.members[p].role != Founder {
      assert IsIn(handed, p, a) && p != target;
    }
  }

  /** A role change written after its target was handed the alliance demotes the new founder. */
  lemma RoleWriteAfterTheHandOverLeavesNoFounder(s: State, r: Rules, founder: nat, target: nat, a: nat, role: Role,
                                                 rights: set<Right>)
    requires TablesSound(s, r.maxMembers) && OneFounder(s) && MayHandOver(s, r, founder, target, a) && role != Founder
    ensures var change := SetMemberRole(a, target, role, Granted(role, rights));
            && Checked(s, r, SetRole(founder, target, role, rights), MembershipOf(s, founder), false) == Pass(change)
            && var wrote := Written(Written(s, r, TransferFounder(a, founder, target)), r, change);
               a in wrote.alliances && !HasFounder(wrote, a)
  {
    AfterTheHandOver(s, r, founder, target, a);
    RoleChangePasses(s, r, founder, target, a, role, rights);
    var handed := Written(s, r, TransferFounder(a, founder, target));
    var wrote := Written(handed, r, SetMemberRole(a, target, role, Granted(role, rights)));
    forall p | IsIn(wrote, p, a) ensures wrote.members[p].role != Founder {
      assert IsIn(handed, p, a);
    }
  }

  lemma RoleChangePasses(s: State, r: Rules, founder: nat, target: nat, a: nat, role: Role, rights: set<Right>)
    requires OneFounder(s) && MayHandOver(s, r, founder, target, a) && role != Founder
    ensures Checked(s, r, SetRole(founder, target, role, rights), MembershipOf(s, founder), false)
         == Pass(SetMemberRole(a, target, role, Granted(role, rights)))
  {
  }

  /** Two hand-overs checked by one founder and then both written make two. */
  lemma TwoHandOversMakeTwoFounders(s: State, r: Rules, founder: nat, one: nat, other: nat, a: nat)
    requires TablesSound(s, r.maxMembers) && OneFounder(s) && one != other
    requires MayHandOver(s, r, founder, one, a) && MayHandOver(s, r, founder, other, a)
    ensures var twice := Written(Written(s, r, TransferFounder(a, founder, one)), r, TransferFounder(a, founder, other));
            IsIn(twice, one, a) && IsIn(twice, other, a) && twice.members[one].role == Founder == twice.members[other].role
  {
  }

  // ------------------------------------------------------------------ where a write comes from

  /** At step `i` session `sid` began this command, and read this membership of its actor. */
  ghost predicate LookedAt(r: Rules, ops: seq<Op>, i: nat, sid: nat, c: Command, me: Option<Membership>)
    requires i < |ops|
  {
    ops[i] == Look(sid, c) && me == MembershipOf(At(r, ops, i).tables, ActorOf(c))
  }

  lemma {:induction false} SessionsBeginWithALook(r: Rules, ops: seq<Op>, k: nat, sid: nat) returns (i: nat)
    requires k <= |ops| && sid in At(r, ops, k).sessions && At(r, ops, k).sessions[sid].Looked?
    ensures i < k
    ensures var s := At(r, ops, k).sessions[sid]; LookedAt(r, ops, i, sid, s.command, s.me)
    decreases k
  {
    var d, op := At(r, ops, k - 1), ops[k - 1];
    if op.Look? && op.sid == sid {
      i := k - 1;
    } else {
      assert sid in d.sessions && d.sessions[sid] == At(r, ops, k).sessions[sid];
      i := SessionsBeginWithALook(r, ops, k - 1, sid);
    }
  }

  /** At step `j` the checks of a command begun at step `i < j` passed, and settled this write. */
  ghost predicate CheckedAt(r: Rules, ops: seq<Op>, i: nat, j: nat, sid: nat, c: Command, w: Write)
    requires i < j < |ops|
  {
    && var me := MembershipOf(At(r, ops, i).tables, ActorOf(c));
       LookedAt(r, ops, i, sid, c, me)
       && ops[j] == Check(sid)
       && exists invited :: Checked(At(r, ops, j).tables, r, c, me, invited) == Pass(w)
  }

  /** Every write waiting to be made, but the clearing of an accepted invitation, has passed its checks. */
  lemma {:induction false} WritesArePassed(r: Rules, ops: seq<Op>, k: nat, sid: nat) returns (i: nat, j: nat, c: Command)
    requires k <= |ops| && sid in At(r, ops, k).sessions && At(r, ops, k).sessions[sid].Ready?
    requires !At(r, ops, k).sessions[sid].write.DeleteInvite?
    ensures i < j < k && CheckedAt(r, ops, i, j, sid, c, At(r, ops, k).sessions[sid].write)
    decreases k
  {
    var d, op := At(r, ops, k - 1), ops[k - 1];
    if op == Check(sid) && sid in d.sessions && d.sessions[sid].Looked? {
      j := k - 1;
      var s := d.sessions[sid];
      i := SessionsBeginWithALook(r, ops, k - 1, sid);
      c := s.command;
      assert Checked(d.tables, r, c, s.me, s.invited) == Pass(At(r, ops, k).sessions[sid].write);
    } else {
      assert sid in d.sessions && d.sessions[sid] == At(r, ops, k).sessions[sid];
      i, j, c := WritesArePassed(r, ops, k - 1, sid);
    }
  }

  /** Step `k` writes `w`, and nothing refuses it. */
  ghost predicate WrittenAt(r: Rules, ops: seq<Op>, k: nat, w: Write)
    requires k < |ops|
  {
    var d := At(r, ops, k);
    && ops[k].Commit? && ops[k].sid in d.sessions && d.sessions[ops[k].sid] == Ready(w)
    && WriteError(d.tables, r, w).None?
  }

  // ------------------------------------------------------------------ where rights come from

  /** From step `first` to step `last`, `p` is a member just like this. */
  ghost predicate StandsFrom(r: Rules, ops: seq<Op>, first: nat, last: nat, p: nat, m: Membership)
    requires last <= |ops|
    decreases last
  {
    first <= last ==>
      MembershipOf(At(r, ops, last).tables, p) == Some(m) && (last > 0 ==> StandsFrom(r, ops, first, last - 1, p, m))
  }

  /** A command that, when begun at step `i`, was the Founder's grant of these rights to `p`. */
  ghost predicate FoundersGrant(r: Rules, ops: seq<Op>, i: nat, c: Command, p: nat, a: nat, rights: set<Right>)
    requires i < |ops|
  {
    && c.SetRole? && c.target == p && c.role == Leader && c.rights == rights
    && var s := At(r, ops, i).tables;
       c.actor in s.members && s.members[c.actor].alliance == a && s.members[c.actor].role == Founder
  }

  lemma LeadersAreWritten(d: Desk, r: Rules, op: Op, p: nat)
    requires p in Step(d, r, op).tables.members && Step(d, r, op).tables.members[p].role == Leader
    ensures var m := Step(d, r, op).tables.members[p];
            || MembershipOf(d.tables, p) == Some(m)
            || (op.Commit? && op.sid in d.sessions && d.sessions[op.sid].Ready?
                && var w := d.sessions[op.sid].write;
                   WriteError(d.tables, r, w).None? && w == SetMemberRole(m.alliance, p, Leader, m.rights))
  {
  }

  lemma OnlyLeadersHoldRights(r: Rules, ops: seq<Op>, k: nat, p: nat)
    requires k <= |ops| && p in At(r, ops, k).tables.members
    requires At(r, ops, k).tables.members[p].role != Founder && At(r, ops, k).tables.members[p].rights != {}
    ensures k > 0 && At(r, ops, k).tables.members[p].role == Leader
  {
    EveryRunKeepsTheTables(r, ops, k);
  }

  /** A role change to Leader that has passed was begun by the Founder. */
  lemma GrantsAreTheFounders(r: Rules, ops: seq<Op>, k: nat, sid: nat, a: nat, p: nat, rights: set<Right>)
    returns (i: nat, j: nat, c: Command)
    requires k <= |ops| && sid in At(r, ops, k).sessions
    requires At(r, ops, k).sessions[sid] == Ready(SetMemberRole(a, p, Leader, rights))
    ensures i < j < k && CheckedAt(r, ops, i, j, sid, c, SetMemberRole(a, p, Leader, rights))
    ensures FoundersGrant(r, ops, i, c, p, a, rights)
  {
    i, j, c := WritesArePassed(r, ops, k, sid);
    var me := MembershipOf(At(r, ops, i).tables, ActorOf(c));
    var invited :| Checked(At(r, ops, j).tables, r, c, me, invited) == Pass(SetMemberRole(a, p, Leader, rights));
    assert c.SetRole?;
  }

  /** Every right of a non-founder traces to a role change that the Founder of its alliance began, which
      passed its checks, was written, and has stood unchanged ever since, whatever ran in between: a
      Leader who manages roles can take rights away, but raise nobody. */
  lemma {:induction false} RightsTraceToAFounder(r: Rules, ops: seq<Op>, k: nat, p: nat)
    returns (i: nat, j: nat, n: nat, sid: nat, c: Command)
    requires k <= |ops| && p in At(r, ops, k).tables.members
    requires At(r, ops, k).tables.members[p].role != Founder && At(r, ops, k).tables.members[p].rights != {}
    ensures i < j < n < k
    ensures var m := At(r, ops, k).tables.members[p];
            && CheckedAt(r, ops, i, j, sid, c, SetMemberRole(m.alliance, p, Leader, m.rights))
            && FoundersGrant(r, ops, i, c, p, m.alliance, m.rights)
            && WrittenAt(r, ops, n, SetMemberRole(m.alliance, p, Leader, m.rights))
            && StandsFrom(r, ops, n + 1, k, p, m)
    decreases k
  {
    OnlyLeadersHoldRights(r, ops, k, p);
    var d, op := At(r, ops, k - 1), ops[k - 1];
    var m := At(r, ops, k).tables.members[p];
    assert At(r, ops, k) == Step(d, r, op);
    LeadersAreWritten(d, r, op, p);
    if MembershipOf(d.tables, p) == Some(m) {
      i, j, n, sid, c := RightsTraceToAFounder(r, ops, k - 1, p);
    } else {
      n, sid := k - 1, op.sid;
      i, j, c := GrantsAreTheFounders(r, ops, k - 1, sid, m.alliance, p, m.rights);
    }
  }

  // ------------------------------------------------------------------ bilateral consent

  predicate Pending(s: State, offerer: nat, other: nat) {
    Pair(offerer, other) in s.pacts && s.pacts[Pair(offerer, other)] == Pact(Confederation, Proposed, Some(offerer))
  }

  predicate Allied(s: State, a: nat, b: nat) {
    Pair(a, b) in s.pacts && s.pacts[Pair(a, b)].stance == Confederation && s.pacts[Pair(a, b)].phase == Active
  }

  /** A write that puts a confederation in force finds the other side's offer pending (or the two allied
      already). */
  predicate Consents(s: State, r: Rules, w: Write) {
    w.SetPact? && WriteError(s, r, w).None? && w.pact.stance == Confederation && w.pact.phase == Active ==>
      Pending(s, w.other, w.alliance) || Allied(s, w.alliance, w.other)
  }

  predicate StepConsents(d: Desk, r: Rules, op: Op) {
    op.Commit? && op.sid in d.sessions && d.sessions[op.sid].Ready? ==> Consents(d.tables, r, d.sessions[op.sid].write)
  }

  /** Any two alliances the step allies, it allies by the write of one while the other's offer is pending. */
  ghost predicate AlliesByConsent(d: Desk, r: Rules, op: Op) {
    forall a, b :: a != b && Allied(Step(d, r, op).tables, a, b) && !Allied(d.tables, a, b) ==>
      exists w :: WritesNow(d, op, w) && Accepts(d.tables, w, a, b)
  }

  predicate WritesNow(d: Desk, op: Op, w: Write) {
    op.Commit? && op.sid in d.sessions && d.sessions[op.sid] == Ready(w)
  }

  /** The write is of one of the two, and the other's offer is pending. */
  predicate Accepts(s: State, w: Write, a: nat, b: nat) {
    && w.SetPact? && ((w.alliance, w.other) == (a, b) || (w.alliance, w.other) == (b, a))
    && w.pact == Pact(Confederation, Active, None) && Pending(s, w.other, w.alliance)
  }

  lemma PairsAreUnordered(a: nat, b: nat, x: nat, y: nat)
    ensures Pair(a, b) == Pair(x, y) <==> (a, b) == (x, y) || (a, b) == (y, x)
  {
  }

  lemma OnlySetPactAllies(d: Desk, r: Rules, op: Op, a: nat, b: nat)
    requires a != b && Allied(Step(d, r, op).tables, a, b) && !Allied(d.tables, a, b)
    ensures op.Commit? && op.sid in d.sessions && d.sessions[op.sid].Ready?
    ensures var w := d.sessions[op.sid].write;
            && w.SetPact? && WriteError(d.tables, r, w).None? && Pair(w.alliance, w.other) == Pair(a, b)
            && w.pact.stance == Confederation && w.pact.phase == Active
  {
  }

  lemma StepAlliesByConsentIff(d: Desk, r: Rules, op: Op)
    requires SessionsSound(d)
    ensures AlliesByConsent(d, r, op) <==> StepConsents(d, r, op)
  {
    if StepConsents(d, r, op) {
      forall a, b | a != b && Allied(Step(d, r, op).tables, a, b) && !Allied(d.tables, a, b)
        ensures exists w :: WritesNow(d, op, w) && Accepts(d.tables, w, a, b)
      {
        OnlySetPactAllies(d, r, op, a, b);
        var w := d.sessions[op.sid].write;
        PairsAreUnordered(w.alliance, w.other, a, b);
        assert WritesNow(d, op, w) && Accepts(d.tables, w, a, b);
      }
    }
    if !StepConsents(d, r, op) {
      var w := d.sessions[op.sid].write;
      assert Allied(Step(d, r, op).tables, w.alliance, w.other) && !Allied(d.tables, w.alliance, w.other);
      forall v | WritesNow(d, op, v) ensures !Accepts(d.tables, v, w.alliance, w.other) {
        assert v == w;
      }
    }
  }

  ghost predicate AllWritesConsent(r: Rules, ops: seq<Op>, k: nat)
    requires k <= |ops|
  {
    k > 0 ==> StepConsents(At(r, ops, k - 1), r, ops[k - 1]) && AllWritesConsent(r, ops, k - 1)
  }

  ghost predicate ConsentThroughout(r: Rules, ops: seq<Op>, k: nat)
    requires k <= |ops|
  {
    k > 0 ==> AlliesByConsent(At(r, ops, k - 1), r, ops[k - 1]) && ConsentThroughout(r, ops, k - 1)
  }

  /** Over every interleaving: no two alliances ever come to be allied but by the write of one while the
      other's offer is pending, if and only if every write that puts a confederation in force still
      finds that offer (or the confederation) there. */
  lemma {:induction false} ConsentIffOffersStillStand(r: Rules, ops: seq<Op>, k: nat)
    requires k <= |ops|
    ensures ConsentThroughout(r, ops, k) <==> AllWritesConsent(r, ops, k)
  {
    if k > 0 {
      ConsentIffOffersStillStand(r, ops, k - 1);
      EveryRunKeepsTheTables(r, ops, k - 1);
      StepAlliesByConsentIff(At(r, ops, k - 1), r, ops[k - 1]);
    }
  }

  /** A command nobody interrupts allies only with the other side's consent. */
  lemma WholeCommandsConsent(s: State, r: Rules, c: Command)
    requires PactsSound(s) && CheckedAtOnce(s, r, c).Pass?
    ensures Consents(s, r, CheckedAtOnce(s, r, c).write)
  {
    var me := MembershipOf(s, ActorOf(c));
    if c.SetDiplomacy? && CheckedAtOnce(s, r, c).write.SetPact? {
      var mine := me.value.alliance;
      PairsAreUnordered(mine, c.other, c.other, mine);
      assert Pair(mine, c.other) in s.pacts ==> PactSound(Pair(mine, c.other), s.pacts[Pair(mine, c.other)]);
    }
  }

  /** An acceptance written after the offer was withdrawn: the two are allied, and the last word of the
      other side was to cancel. */
  lemma AcceptingAWithdrawnOffer(s: State, r: Rules, mine: nat, other: nat, me: Membership)
    requires me.alliance == mine && HasRight(me, Diplomacy) && mine != other && Pending(s, other, mine)
    requires mine in s.alliances && other in s.alliances
    ensures var accept := SetPact(mine, other, Pact(Confederation, Active, None));
            var withdrawn := Written(s, r, ClearPact(other, mine));
            && CheckDiplomacy(s, other, Accept, Some(me)) == Pass(accept)
            && !Consents(withdrawn, r, accept) && Allied(Written(withdrawn, r, accept), mine, other)
  {
    PairsAreUnordered(mine, other, other, mine);
  }

  /** Through all of steps `first` to `last` the offer of `a` to `b` is pending. */
  ghost predicate PendingFrom(r: Rules, ops: seq<Op>, first: nat, last: nat, a: nat, b: nat)
    requires last <= |ops|
    decreases last
  {
    first <= last ==> Pending(At(r, ops, last).tables, a, b) && (last > 0 ==> PendingFrom(r, ops, first, last - 1, a, b))
  }

  ghost predicate AlliedFrom(r: Rules, ops: seq<Op>, first: nat, last: nat, a: nat, b: nat)
    requires last <= |ops|
    decreases last
  {
    first <= last ==> Allied(At(r, ops, last).tables, a, b) && (last > 0 ==> AlliedFrom(r, ops, first, last - 1, a, b))
  }

  /** At step `i` somebody who then held the Diplomacy right of `a` began a stroke toward `b` that passed
      its checks and was written at step `n` as this pact. */
  ghost predicate StruckBy(r: Rules, ops: seq<Op>, i: nat, n: nat, a: nat, b: nat, stroke: Stroke, pact: Pact)
    requires i < n < |ops|
  {
    && ops[i].Look? && ops[i].command.SetDiplomacy? && ops[i].command.other == b && ops[i].command.stroke == stroke
    && Holds(At(r, ops, i).tables, ops[i].command.actor, a, Diplomacy)
    && WrittenAt(r, ops, n, SetPact(a, b, pact))
  }

  lemma PendingIsWritten(d: Desk, r: Rules, op: Op, a: nat, b: nat)
    requires a != b && Pending(Step(d, r, op).tables, a, b)
    ensures Pending(d.tables, a, b)
         || (op.Commit? && op.sid in d.sessions && d.sessions[op.sid].Ready?
             && var w := d.sessions[op.sid].write;
                && w.SetPact? && WriteError(d.tables, r, w).None? && Pair(w.alliance, w.other) == Pair(a, b)
                && w.pact == Pact(Confederation, Proposed, Some(a)))
  {
  }

  /** The stroke behind a pact that is about to be written. */
  lemma PactsArePassed(r: Rules, ops: seq<Op>, k: nat, w: Write) returns (i: nat)
    requires k < |ops| && WrittenAt(r, ops, k, w) && w.SetPact? && w.pact.stance == Confederation
    ensures i < k && ops[i].Look? && ops[i].command.SetDiplomacy?
    ensures StruckBy(r, ops, i, k, w.alliance, w.other, ops[i].command.stroke, w.pact)
    ensures w.pact.phase == Proposed ==> ops[i].command.stroke == Propose && w.pact.proposedBy == Some(w.alliance)
    ensures w.pact.phase == Active ==> ops[i].command.stroke == Accept || ops[i].command.stroke == Propose
  {
    var j, c;
    i, j, c := WritesArePassed(r, ops, k, ops[k].sid);
  }

  /** A pending offer was written for somebody who held the Diplomacy right of the offering alliance when
      the command began, and has stood ever since. */
  lemma {:induction false} OffersAreMade(r: Rules, ops: seq<Op>, k: nat, a: nat, b: nat) returns (i: nat, n: nat)
    requires k <= |ops| && a != b && Pending(At(r, ops, k).tables, a, b)
    ensures i < n < k && StruckBy(r, ops, i, n, a, b, Propose, Pact(Confederation, Proposed, Some(a)))
    ensures PendingFrom(r, ops, n + 1, k, a, b)
    decreases k
  {
    var d, op := At(r, ops, k - 1), ops[k - 1];
    assert At(r, ops, k) == Step(d, r, op);
    PendingIsWritten(d, r, op, a, b);
    if Pending(d.tables, a, b) {
      i, n := OffersAreMade(r, ops, k - 1, a, b);
    } else {
      n := k - 1;
      var w := d.sessions[op.sid].write;
      i := PactsArePassed(r, ops, n, w);
      PairsAreUnordered(w.alliance, w.other, a, b);
    }
  }

  lemma AlliancesAreActive(r: Rules, ops: seq<Op>, k: nat, w: Write)
    requires k < |ops| && WrittenAt(r, ops, k, w) && w.SetPact? && w.pact.stance == Confederation && w.pact.phase == Active
    ensures w.pact == Pact(Confederation, Active, None)
  {
    EveryRunKeepsTheTables(r, ops, k);
  }

  /** The write that allied two alliances, and the stroke behind it. */
  lemma AlliancesAreAccepted(r: Rules, ops: seq<Op>, k: nat, a: nat, b: nat)
    returns (offerer: nat, accepter: nat, i: nat)
    requires k < |ops| && a != b && StepConsents(At(r, ops, k), r, ops[k])
    requires Allied(Step(At(r, ops, k), r, ops[k]).tables, a, b) && !Allied(At(r, ops, k).tables, a, b)
    ensures (offerer, accepter) == (a, b) || (offerer, accepter) == (b, a)
    ensures Pending(At(r, ops, k).tables, offerer, accepter)
    ensures i < k && ops[i].Look? && ops[i].command.SetDiplomacy? && ops[i].command.stroke in {Accept, Propose}
    ensures StruckBy(r, ops, i, k, accepter, offerer, ops[i].command.stroke, Pact(Confederation, Active, None))
  {
    var d, op := At(r, ops, k), ops[k];
    OnlySetPactAllies(d, r, op, a, b);
    var w := d.sessions[op.sid].write;
    PairsAreUnordered(w.alliance, w.other, a, b);
    offerer, accepter := w.other, w.alliance;
    AlliancesAreActive(r, ops, k, w);
    i := PactsArePassed(r, ops, k, w);
  }

  /** The history of a confederation by consent: an offer of one side begun at step `i` and written at
      `n`; an acceptance (or an offer of its own) of the other side begun at `i'` and written at `n'`;
      the offer pending from `n` to `n'`, and the confederation in force from then on. */
  ghost predicate ByConsent(r: Rules, ops: seq<Op>, k: nat, offerer: nat, accepter: nat, i: nat, n: nat, i': nat, n': nat)
    requires k <= |ops|
  {
    && i < n < n' < k && i' < n'
    && StruckBy(r, ops, i, n, offerer, accepter, Propose, Pact(Confederation, Proposed, Some(offerer)))
    && PendingFrom(r, ops, n + 1, n', offerer, accepter)
    && ops[i'].Look? && ops[i'].command.SetDiplomacy? && ops[i'].command.stroke in {Accept, Propose}
    && StruckBy(r, ops, i', n', accepter, offerer, ops[i'].command.stroke, Pact(Confederation, Active, None))
    && AlliedFrom(r, ops, n' + 1, k, offerer, accepter)
  }

  lemma ConsentBegins(r: Rules, ops: seq<Op>, k: nat, a: nat, b: nat)
    returns (offerer: nat, accepter: nat, i: nat, n: nat, i': nat)
    requires k < |ops| && a != b && StepConsents(At(r, ops, k), r, ops[k])
    requires Allied(At(r, ops, k + 1).tables, a, b) && !Allied(At(r, ops, k).tables, a, b)
    ensures (offerer, accepter) == (a, b) || (offerer, accepter) == (b, a)
    ensures ByConsent(r, ops, k + 1, offerer, accepter, i, n, i', k)
  {
    offerer, accepter, i' := AlliancesAreAccepted(r, ops, k, a, b);
    i, n := OffersAreMade(r, ops, k, offerer, accepter);
    PairsAreUnordered(a, b, offerer, accepter);
  }

  lemma ConsentLasts(r: Rules, ops: seq<Op>, k: nat, offerer: nat, accepter: nat, i: nat, n: nat, i': nat, n': nat)
    requires k < |ops| && ByConsent(r, ops, k, offerer, accepter, i, n, i', n')
    requires Allied(At(r, ops, k + 1).tables, offerer, accepter)
    ensures ByConsent(r, ops, k + 1, offerer, accepter, i, n, i', n')
  {
  }

  /** Bilateral consent: in a run whose acceptances all still find their offer, behind every confederation
      in force stand a written offer by one alliance and, later, a written acceptance (or offer of its
      own) by the *other*, each begun by a then-holder of the Diplomacy right; the offer was pending from
      its writing until the acceptance, and the confederation in force from then on. */
  lemma {:induction false} ConfederationsAreByConsent(r: Rules, ops: seq<Op>, k: nat, a: nat, b: nat)
    returns (offerer: nat, accepter: nat, i: nat, n: nat, i': nat, n': nat)
    requires k <= |ops| && a != b && AllWritesConsent(r, ops, k) && Allied(At(r, ops, k).tables, a, b)
    ensures (offerer, accepter) == (a, b) || (offerer, accepter) == (b, a)
    ensures ByConsent(r, ops, k, offerer, accepter, i, n, i', n')
    decreases k
  {
    assert k > 0;
    if Allied(At(r, ops, k - 1).tables, a, b) {
      offerer, accepter, i, n, i', n' := ConfederationsAreByConsent(r, ops, k - 1, a, b);
      PairsAreUnordered(a, b, offerer, accepter);
      ConsentLasts(r, ops, k - 1, offerer, accepter, i, n, i', n');
    } else {
      n' := k - 1;
      offerer, accepter, i, n, i' := ConsentBegins(r, ops, k - 1, a, b);
    }
  }

  /** Confederates see each other, and nobody is their own confederate. */
  lemma ConfederatesAreMutual(r: Rules, ops: seq<Op>, k: nat, a: nat, b: nat)
    requires k <= |ops|
    ensures var s := At(r, ops, k).tables;
            && (b in Confederates(s, a) <==> Allied(s, a, b))
            && (b in Confederates(s, a) <==> a in Confederates(s, b))
            && a !in Confederates(s, a)
  {
    EveryRunKeepsTheTables(r, ops, k);
    var s := At(r, ops, k).tables;
    if Allied(s, a, b) {
      assert Pair(a, b) in s.pacts;
    }
  }
}
