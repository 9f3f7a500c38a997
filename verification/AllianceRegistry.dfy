/** The alliance use-cases as they run on the stored tables, one at a time: what each may change, and by
    whose right. */
module AllianceRegistry {
  import opened Options
  import opened Alliances
  import opened AllianceLaws

  // ------------------------------------------------------------------ who may change what

  predicate IsFounderOf(s: State, p: nat, a: nat) { IsIn(s, p, a) && s.members[p].role == Founder }

  /** Whose membership the command may change, and by what right. */
  predicate MayMove(s: State, r: Rules, c: Command, p: nat) {
    match c
    case Found(actor, _, _, embassy) => p == actor && p !in s.members && embassy >= r.foundEmbassy
    case Respond(actor, a, accept, embassy) =>
      && p == actor && p !in s.members && accept && (a, p) in s.invites && embassy >= r.joinEmbassy
      && |Roster(s, a)| < r.maxMembers
    case Leave(actor) => p == actor && p in s.members && s.members[p].role != Founder
    case ExpelMember(actor, target) =>
      && p == target != actor && p in s.members && Holds(s, actor, s.members[p].alliance, Right.Expel)
      && Outranks(s.members[actor].role, s.members[p].role)
    case SetRole(actor, target, role, _) =>
      && p == target != actor && p in s.members && Holds(s, actor, s.members[p].alliance, ManageRoles)
      && Outranks(s.members[actor].role, s.members[p].role) && Outranks(s.members[actor].role, role)
    case Transfer(actor, target) =>
      && (p == actor || p == target) && p in s.members && IsFounderOf(s, actor, s.members[p].alliance)
    case Disband(actor) => p in s.members && IsFounderOf(s, actor, s.members[p].alliance)
    case _ => false
  }

  /** No command changes anybody's membership without the right to. In particular nobody is moved from one
      alliance to another, and nobody changes a Founder's membership but he himself. */
  lemma MembershipsChangeOnlyByRight(s: State, r: Rules, c: Command, p: nat)
    requires Referenced(s)
    ensures MembershipOf(Whole(s, r, c), p) != MembershipOf(s, p) ==> MayMove(s, r, c, p)
    ensures var t := Whole(s, r, c);
            p in s.members && p in t.members ==> t.members[p].alliance == s.members[p].alliance
  {
  }

  lemma FoundersMoveThemselves(s: State, r: Rules, c: Command, p: nat)
    requires Referenced(s) && OneFounder(s) && p in s.members && s.members[p].role == Founder
    ensures MembershipOf(Whole(s, r, c), p) != Some(s.members[p]) ==> ActorOf(c) == p && (c.Transfer? || c.Disband?)
  {
    MembershipsChangeOnlyByRight(s, r, c, p);
    if MayMove(s, r, c, p) && (c.Transfer? || c.Disband?) {
      assert s.alliances[s.members[p].alliance].founder == p;
    }
  }

  /** No command changes a pact but by the Diplomacy right of one of the two, or the disbanding of one. */
  lemma PactsChangeOnlyByRight(s: State, r: Rules, c: Command, a: nat, b: nat)
    ensures PactOf(Whole(s, r, c), a, b) != PactOf(s, a, b) ==>
              || (c.SetDiplomacy? && ((c.other == b && Holds(s, c.actor, a, Diplomacy)) || (c.other == a && Holds(s, c.actor, b, Diplomacy))))
              || (c.Disband? && (IsFounderOf(s, c.actor, a) || IsFounderOf(s, c.actor, b)))
  {
    if c.SetDiplomacy? && c.actor in s.members {
      PairsAreUnordered(a, b, s.members[c.actor].alliance, c.other);
    }
  }

  /** Invitations are given and taken back by the Invite right only, and used up by the invited alone. */
  lemma InvitationsChangeOnlyByRight(s: State, r: Rules, c: Command, a: nat, p: nat)
    ensures (a, p) !in s.invites && (a, p) in Whole(s, r, c).invites ==>
              c == InvitePlayer(c.actor, p) && Holds(s, c.actor, a, Invite) && p !in s.members
    ensures (a, p) in s.invites && (a, p) !in Whole(s, r, c).invites ==>
              || (c == RevokeInvite(c.actor, p) && Holds(s, c.actor, a, Invite))
              || (c.Respond? && c.actor == p && c.alliance == a)
              || (c.Disband? && IsFounderOf(s, c.actor, a))
  {
  }

  /** An alliance comes by founding, goes by its founder's disbanding it, and keeps its name and tag; only
      its founder makes another its founder. */
  lemma AlliancesChangeOnlyByRight(s: State, r: Rules, c: Command, a: nat)
    requires Referenced(s)
    ensures var t := Whole(s, r, c);
            && (a !in s.alliances && a in t.alliances ==> a == s.nextId && c.Found?)
            && (a in s.alliances && a !in t.alliances ==> c.Disband? && IsFounderOf(s, c.actor, a))
            && (a in s.alliances && a in t.alliances && a != s.nextId ==>
                  && t.alliances[a].name == s.alliances[a].name && t.alliances[a].tag == s.alliances[a].tag
                  && (t.alliances[a].founder == s.alliances[a].founder
                      || (c.Transfer? && IsFounderOf(s, c.actor, a) && t.alliances[a].founder == c.target)))
  {
  }

  lemma WritesKeepReferences(s: State, r: Rules, w: Write)
    requires Referenced(s)
    ensures Referenced(Written(s, r, w))
  {
  }

  lemma WholeCommandsKeepReferences(s: State, r: Rules, c: Command)
    requires Referenced(s)
    ensures Referenced(Whole(s, r, c))
  {
    var verdict := CheckedAtOnce(s, r, c);
    if verdict.Pass? {
      WritesKeepReferences(s, r, verdict.write);
      if verdict.write.AddMember? {
        WritesKeepReferences(Written(s, r, verdict.write), r, DeleteInvite(verdict.write.alliance, verdict.write.player));
      }
    }
  }

  // ------------------------------------------------------------------ what a command is for

  /** Why a command is refused, if it is. */
  function Refusal(s: State, r: Rules, c: Command): Option<Error> {
    match CheckedAtOnce(s, r, c)
    case Fail(error) => Some(error)
    case Pass(w) => WriteError(s, r, w)
  }

  /** The founder may do everything, a leader what he was granted, a member nothing. */
  predicate Entitled(s: State, p: nat, right: Right) {
    p in s.members && (s.members[p].role == Founder || (s.members[p].role == Leader && right in s.members[p].rights))
  }

  predicate Above(a: Role, b: Role) { (a == Founder && b != Founder) || (a == Leader && b == Member) }

  predicate Comrades(s: State, p: nat, q: nat) {
    p in s.members && q in s.members && s.members[p].alliance == s.members[q].alliance
  }

  predicate AtWar(s: State, a: nat, b: nat) { PactOf(s, a, b).Some? && PactOf(s, a, b).value.stance == War }

  /** When a command is to be accepted. */
  predicate Allowed(s: State, r: Rules, c: Command) {
    match c
    case Found(actor, name, tag, embassy) =>
      actor !in s.members && embassy >= r.foundEmbassy && !NameTaken(s, name, tag)
    case InvitePlayer(actor, invitee) =>
      Entitled(s, actor, Invite) && invitee !in s.members && (s.members[actor].alliance, invitee) !in s.invites
    case RevokeInvite(actor, invitee) => Entitled(s, actor, Invite)
    case Respond(actor, a, accept, embassy) =>
      (a, actor) in s.invites && (accept ==> MayJoin(s, r, actor, a, embassy))
    case Leave(actor) => actor in s.members && s.members[actor].role != Founder
    case ExpelMember(actor, target) =>
      actor != target && Entitled(s, actor, Right.Expel) && Comrades(s, actor, target)
      && Above(s.members[actor].role, s.members[target].role)
    case SetRole(actor, target, role, _) =>
      actor != target && Entitled(s, actor, ManageRoles) && Comrades(s, actor, target)
      && Above(s.members[actor].role, s.members[target].role) && Above(s.members[actor].role, role)
    case Transfer(actor, target) =>
      actor != target && Comrades(s, actor, target) && s.members[actor].role == Founder
    case Disband(actor) => actor in s.members && s.members[actor].role == Founder
    case SetDiplomacy(actor, other, stroke) =>
      Entitled(s, actor, Diplomacy) && MayStrike(s, s.members[actor].alliance, other, stroke)
  }

  predicate MayJoin(s: State, r: Rules, p: nat, a: nat, embassy: nat) {
    p !in s.members && embassy >= r.joinEmbassy && |Roster(s, a)| < r.maxMembers
  }

  /** Nothing but a withdrawal needs the other alliance to be live; a confederation is proposed in peace
      only, and accepted only if the other side has offered it or it stands already. */
  predicate MayStrike(s: State, mine: nat, other: nat, stroke: Stroke) {
    && mine != other
    && (stroke == Cancel || other in s.alliances)
    && (stroke == Propose ==> !AtWar(s, mine, other))
    && (stroke == Accept ==> Pending(s, other, mine) || Allied(s, mine, other))
  }

  /** What the two alliances are to one another after an accepted stroke of `mine`. */
  function StruckPact(s: State, mine: nat, other: nat, stroke: Stroke): Option<Pact> {
    match stroke
    case DeclareWar => Some(Pact(War, Active, None))
    case Cancel => None
    case Accept => Some(Pact(Confederation, Active, None))
    case Propose =>
      if Allied(s, mine, other) then Some(Pact(Confederation, Active, None))
      else Some(Pact(Confederation, Proposed, Some(mine)))
  }

  /** What an accepted command has brought about. */
  predicate TookEffect(s: State, t: State, c: Command) {
    match c
    case Found(actor, name, tag, _) =>
      && s.nextId in t.alliances && t.alliances[s.nextId] == Alliance(name, tag, actor)
      && MembershipOf(t, actor) == Some(Membership(s.nextId, Founder, ALL_RIGHTS)) && t.nextId > s.nextId
    case InvitePlayer(actor, invitee) =>
      actor in s.members && (s.members[actor].alliance, invitee) in t.invites
    case RevokeInvite(actor, invitee) =>
      actor in s.members && (s.members[actor].alliance, invitee) !in t.invites
    case Respond(actor, a, accept, _) =>
      && (a, actor) !in t.invites
      && MembershipOf(t, actor) == if accept then Some(Membership(a, Member, {})) else MembershipOf(s, actor)
    case Leave(actor) => actor !in t.members
    case ExpelMember(_, target) => target !in t.members
    case SetRole(actor, target, role, rights) =>
      && actor in s.members
      && MembershipOf(t, target)
         == Some(Membership(s.members[actor].alliance, role, if role == Leader then rights else {}))
    case Transfer(actor, target) =>
      && actor in s.members && s.members[actor].alliance in t.alliances
      && t.alliances[s.members[actor].alliance].founder == target
      && MembershipOf(t, target) == Some(Membership(s.members[actor].alliance, Founder, ALL_RIGHTS))
      && MembershipOf(t, actor) == Some(Membership(s.members[actor].alliance, Member, {}))
    case Disband(actor) => actor in s.members && IsGone(t, s.members[actor].alliance)
    case SetDiplomacy(actor, other, stroke) =>
      && actor in s.members
      && var mine := s.members[actor].alliance;
         PactOf(t, mine, other) == PactOf(t, other, mine) == StruckPact(s, mine, other, stroke)
  }

  /** Nothing of the alliance is left. */
  predicate IsGone(t: State, a: nat) {
    && a !in t.alliances && Roster(t, a) == {} && (forall i :: i in t.invites ==> i.0 != a)
    && (forall k :: k in t.pacts ==> k.0 != a && k.1 != a)
  }

  /** What a refusal says is so. */
  predicate Explains(s: State, r: Rules, c: Command, e: Error) {
    match e
    case NotAMember => c.actor !in s.members
    case AlreadyInAlliance => (c.Found? || c.Respond?) && c.actor in s.members
    case TargetInAlliance => c.InvitePlayer? && c.invitee in s.members
    case NotEligible => (c.Found? && c.embassy < r.foundEmbassy) || (c.Respond? && c.embassy < r.joinEmbassy)
    case NameOrTagTaken => c.Found? && NameTaken(s, c.name, c.tag)
    case MissingRight => c.actor in s.members && Lacks(s, c)
    case RankTooLow =>
      && (c.ExpelMember? || c.SetRole?) && Comrades(s, c.actor, c.target)
      && (Above(s.members[c.actor].role, s.members[c.target].role) ==> c.SetRole? && !Above(s.members[c.actor].role, c.role))
    case SelfTarget => (c.ExpelMember? || c.SetRole? || c.Transfer?) && c.target == c.actor
    case AtCap => c.Respond? && |Roster(s, c.alliance)| >= r.maxMembers
    case NoInvite => c.Respond? && (c.alliance, c.actor) !in s.invites
    case AlreadyInvited =>
      c.InvitePlayer? && c.actor in s.members && (s.members[c.actor].alliance, c.invitee) in s.invites
    case FounderMustTransfer => c.Leave? && c.actor in s.members && s.members[c.actor].role == Founder
    case TargetNotInAlliance => (c.ExpelMember? || c.SetRole? || c.Transfer?) && !Comrades(s, c.actor, c.target)
    case BadRole => c.SetRole? && c.role == Founder
    case SelfDiplomacy => Strikes(s, c) && s.members[c.actor].alliance == c.other
    case CannotAcceptOwnProposal =>
      Strikes(s, c) && c.stroke == Accept && Pending(s, s.members[c.actor].alliance, c.other)
    case WarBlocksConfederation =>
      Strikes(s, c) && c.stroke == Propose && AtWar(s, s.members[c.actor].alliance, c.other)
    case NothingToAccept =>
      && Strikes(s, c) && c.stroke == Accept
      && (PactOf(s, s.members[c.actor].alliance, c.other).None? || AtWar(s, s.members[c.actor].alliance, c.other))
    case Backend => Strikes(s, c) && c.other !in s.alliances
  }

  predicate Strikes(s: State, c: Command) { c.SetDiplomacy? && Entitled(s, c.actor, Diplomacy) }

  /** The actor lacks the right, or the rank, that the command asks for. */
  predicate Lacks(s: State, c: Command) {
    match c
    case InvitePlayer(actor, _) => !Entitled(s, actor, Invite)
    case RevokeInvite(actor, _) => !Entitled(s, actor, Invite)
    case ExpelMember(actor, _) => !Entitled(s, actor, Right.Expel)
    case SetRole(actor, _, _, _) => !Entitled(s, actor, ManageRoles)
    case SetDiplomacy(actor, _, _) => !Entitled(s, actor, Diplomacy)
    case Transfer(actor, _) => actor in s.members && s.members[actor].role != Founder
    case Disband(actor) => actor in s.members && s.members[actor].role != Founder
    case _ => false
  }

  lemma PactsAreSymmetric(s: State, a: nat, b: nat)
    requires PactsSound(s)
    ensures PactOf(s, a, b) == PactOf(s, b, a)
    ensures PactOf(s, a, b).Some? ==> PactSound(Pair(a, b), PactOf(s, a, b).value)
  {
    PairsAreUnordered(a, b, b, a);
  }

  lemma StrokesAreRefusedIffNotAllowed(s: State, r: Rules, actor: nat, other: nat, stroke: Stroke)
    requires Referenced(s) && PactsSound(s) && Entitled(s, actor, Diplomacy)
    ensures var c := SetDiplomacy(actor, other, stroke); Refusal(s, r, c).None? <==> Allowed(s, r, c)
  {
    PactsAreSymmetric(s, s.members[actor].alliance, other);
  }

  lemma RefusedStrokesSayWhatIsSo(s: State, r: Rules, actor: nat, other: nat, stroke: Stroke)
    requires Referenced(s) && PactsSound(s) && Entitled(s, actor, Diplomacy)
    ensures var c := SetDiplomacy(actor, other, stroke);
            Refusal(s, r, c).Some? ==> Whole(s, r, c) == s && Explains(s, r, c, Refusal(s, r, c).value)
  {
    PactsAreSymmetric(s, s.members[actor].alliance, other);
  }

  lemma StrokesTakeEffect(s: State, r: Rules, actor: nat, other: nat, stroke: Stroke)
    requires Referenced(s) && PactsSound(s) && Allowed(s, r, SetDiplomacy(actor, other, stroke))
    ensures var c := SetDiplomacy(actor, other, stroke); TookEffect(s, Whole(s, r, c), c)
  {
    PactsAreSymmetric(s, s.members[actor].alliance, other);
    PairsAreUnordered(s.members[actor].alliance, other, other, s.members[actor].alliance);
  }

  lemma RankCommandsOf(s: State, r: Rules, c: Command)
    requires c.ExpelMember? || c.SetRole? || c.Transfer?
    ensures Refusal(s, r, c).None? <==> Allowed(s, r, c)
    ensures Refusal(s, r, c).Some? ==> Whole(s, r, c) == s && Explains(s, r, c, Refusal(s, r, c).value)
  {
  }

  lemma InvitationCommandsOf(s: State, r: Rules, c: Command)
    requires Referenced(s) && (c.InvitePlayer? || c.RevokeInvite? || c.Respond?)
    ensures Refusal(s, r, c).None? <==> Allowed(s, r, c)
    ensures Refusal(s, r, c).Some? ==> Whole(s, r, c) == s && Explains(s, r, c, Refusal(s, r, c).value)
  {
  }

  /** A command is refused exactly when it is not allowed, and then changes nothing and says what is so. */
  lemma RefusedIffNotAllowed(s: State, r: Rules, c: Command)
    requires Referenced(s) && PactsSound(s)
    ensures Refusal(s, r, c).None? <==> Allowed(s, r, c)
    ensures Refusal(s, r, c).Some? ==> Whole(s, r, c) == s && Explains(s, r, c, Refusal(s, r, c).value)
  {
    if c.SetDiplomacy? && Entitled(s, c.actor, Diplomacy) {
      StrokesAreRefusedIffNotAllowed(s, r, c.actor, c.other, c.stroke);
      RefusedStrokesSayWhatIsSo(s, r, c.actor, c.other, c.stroke);
    } else if c.ExpelMember? || c.SetRole? || c.Transfer? {
      RankCommandsOf(s, r, c);
    } else if c.InvitePlayer? || c.RevokeInvite? || c.Respond? {
      InvitationCommandsOf(s, r, c);
    }
  }

  /** An allowed command has its effect. */
  lemma AllowedCommandsTakeEffect(s: State, r: Rules, c: Command)
    requires Referenced(s) && PactsSound(s) && Allowed(s, r, c)
    ensures TookEffect(s, Whole(s, r, c), c)
  {
    RefusedIffNotAllowed(s, r, c);
    if c.SetDiplomacy? { StrokesTakeEffect(s, r, c.actor, c.other, c.stroke); }
  }

  /** An offer is accepted by the other side, never by its own; offering back takes the offer over, and
      leaves it to the first side to accept. */
  lemma AnOfferIsTheOthersToAccept(s: State, r: Rules, mine: nat, other: nat, me: nat, they: nat)
    requires Referenced(s) && PactsSound(s) && Pending(s, mine, other)
    requires Entitled(s, me, Diplomacy) && s.members[me].alliance == mine
    requires Entitled(s, they, Diplomacy) && s.members[they].alliance == other
    ensures Refusal(s, r, SetDiplomacy(me, other, Accept)) == Some(CannotAcceptOwnProposal)
    ensures Allied(Whole(s, r, SetDiplomacy(they, mine, Accept)), mine, other)
    ensures Pending(Whole(s, r, SetDiplomacy(they, mine, Propose)), other, mine)
    ensures !Pending(Whole(s, r, SetDiplomacy(they, mine, Propose)), mine, other)
  {
    assert PactSound(Pair(mine, other), s.pacts[Pair(mine, other)]);
    PairsAreUnordered(mine, other, other, mine);
    RefusedIffNotAllowed(s, r, SetDiplomacy(me, other, Accept));
    AllowedCommandsTakeEffect(s, r, SetDiplomacy(they, mine, Accept));
    AllowedCommandsTakeEffect(s, r, SetDiplomacy(they, mine, Propose));
  }

  /** A command nobody interrupts does, step by step, what it does as a whole; its last write is the
      deletion of an accepted invitation. */
  lemma AnUndisturbedCommandIsWhole(d: Desk, r: Rules, sid: nat, c: Command)
    ensures var checked := Step(Step(d, r, Look(sid, c)), r, Check(sid));
            Step(Step(checked, r, Commit(sid)), r, Commit(sid)).tables == Whole(d.tables, r, c)
  {
    var looked := Step(d, r, Look(sid, c));
    var checked := Step(looked, r, Check(sid));
    assert looked.tables == d.tables && looked.sessions[sid].Looked?;
    match CheckedAtOnce(d.tables, r, c)
    case Fail(_) => assert sid !in checked.sessions;
    case Pass(w) =>
      assert checked.sessions[sid] == Ready(w);
      var committed := Step(checked, r, Commit(sid));
      assert committed.tables == Written(d.tables, r, w);
  }

  // ------------------------------------------------------------------ the use-cases

  /** What a caller is promised of sound tables. */
  predicate Kept(before: State, after: State, r: Rules, c: Command, error: Option<Error>) {
    && (error.None? <==> Allowed(before, r, c))
    && (error.None? ==> TookEffect(before, after, c))
    && (error.Some? ==> after == before && Explains(before, r, c, error.value))
  }

  lemma CommandsKeepTheirPromise(s: State, r: Rules, c: Command)
    requires TablesSound(s, r.maxMembers)
    ensures Kept(s, Whole(s, r, c), r, c, Refusal(s, r, c))
  {
    RefusedIffNotAllowed(s, r, c);
    if Allowed(s, r, c) { AllowedCommandsTakeEffect(s, r, c); }
  }

  /** What a command does to the tables: the new ones, or an error and no change. */
  predicate Did(before: State, after: State, r: Rules, c: Command, error: Option<Error>) {
    after == Whole(before, r, c) && error == Refusal(before, r, c)
  }

  /** The player's alliance, if any, is live. */
  predicate ReferencesHold(s: State, p: nat) { p in s.members ==> s.members[p].alliance in s.alliances }

  class Registry {
    var members: map<nat, Membership>
    var alliances: map<nat, Alliance>
    var invites: set<(nat, nat)>
    var pacts: map<(nat, nat), Pact>
    var nextId: nat
    const rules: Rules

    constructor (r: Rules)
      ensures Tables() == INIT && rules == r && Referenced(Tables())
    {
      members, alliances, invites, pacts, nextId, rules := map[], map[], {}, map[], 0, r;
    }

    function Tables(): State
      reads this
    {
      State(members, alliances, invites, pacts, nextId)
    }

    /** The tables are in order, and every alliance has one founder. */
    ghost predicate Valid()
      reads this
    {
      TablesSound(Tables(), rules.maxMembers) && OneFounder(Tables())
    }

    method FoundAlliance(actor: nat, name: string, tag: string, embassy: nat) returns (error: Option<Error>)
      modifies this
      ensures Did(old(Tables()), Tables(), rules, Found(actor, name, tag, embassy), error)
    {
      if actor in members { return Some(AlreadyInAlliance); }
      if embassy < rules.foundEmbassy { return Some(NotEligible); }
      if exists a :: a in alliances && (alliances[a].name == name || alliances[a].tag == tag) {
        return Some(NameOrTagTaken);
      }
      alliances := alliances[nextId := Alliance(name, tag, actor)];
      members := members[actor := Membership(nextId, Founder, ALL_RIGHTS)];
      nextId := nextId + 1;
      error := None;
    }

    method InviteTo(actor: nat, invitee: nat) returns (error: Option<Error>)
      requires ReferencesHold(Tables(), actor)
      modifies this
      ensures Did(old(Tables()), Tables(), rules, InvitePlayer(actor, invitee), error)
    {
      if actor !in members { return Some(NotAMember); }
      var me := members[actor];
      if !HasRight(me, Invite) { return Some(MissingRight); }
      if invitee in members { return Some(TargetInAlliance); }
      if (me.alliance, invitee) in invites { return Some(AlreadyInvited); }
      invites := invites + {(me.alliance, invitee)};
      error := None;
    }

    method Revoke(actor: nat, invitee: nat) returns (error: Option<Error>)
      modifies this
      ensures Did(old(Tables()), Tables(), rules, RevokeInvite(actor, invitee), error)
    {
      if actor !in members { return Some(NotAMember); }
      if !HasRight(members[actor], Invite) { return Some(MissingRight); }
      invites := invites - {(members[actor].alliance, invitee)};
      error := None;
    }

    method RespondInvite(actor: nat, alliance: nat, accept: bool, embassy: nat) returns (error: Option<Error>)
      requires (alliance, actor) in invites ==> alliance in alliances
      modifies this
      ensures Did(old(Tables()), Tables(), rules, Respond(actor, alliance, accept, embassy), error)
    {
      if (alliance, actor) !in invites { return Some(NoInvite); }
      if accept {
        if actor in members { return Some(AlreadyInAlliance); }
        if embassy < rules.joinEmbassy { return Some(NotEligible); }
        var comrades := set p | p in members && members[p].alliance == alliance;
        assert comrades == Roster(Tables(), alliance);
        if |comrades| >= rules.maxMembers { return Some(AtCap); }
        members := members[actor := Membership(alliance, Member, {})];
      }
      invites := invites - {(alliance, actor)};
      error := None;
    }

    method LeaveAlliance(actor: nat) returns (error: Option<Error>)
      modifies this
      ensures Did(old(Tables()), Tables(), rules, Leave(actor), error)
    {
      if actor !in members { return Some(NotAMember); }
      if members[actor].role == Founder { return Some(FounderMustTransfer); }
      members := members - {actor};
      error := None;
    }

    method Expel(actor: nat, target: nat) returns (error: Option<Error>)
      modifies this
      ensures Did(old(Tables()), Tables(), rules, ExpelMember(actor, target), error)
    {
      if actor == target { return Some(SelfTarget); }
      if actor !in members { return Some(NotAMember); }
      var me := members[actor];
      if target !in members || members[target].alliance != me.alliance { return Some(TargetNotInAlliance); }
      if !HasRight(me, Right.Expel) { return Some(MissingRight); }
      if !Outranks(me.role, members[target].role) { return Some(RankTooLow); }
      members := members - {target};
      error := None;
    }

    method SetRoleOf(actor: nat, target: nat, role: Role, rights: set<Right>) returns (error: Option<Error>)
      modifies this
      ensures Did(old(Tables()), Tables(), rules, SetRole(actor, target, role, rights), error)
    {
      if actor == target { return Some(SelfTarget); }
      if role == Founder { return Some(BadRole); }
      if actor !in members { return Some(NotAMember); }
      var me := members[actor];
      if !HasRight(me, ManageRoles) { return Some(MissingRight); }
      if target !in members || members[target].alliance != me.alliance { return Some(TargetNotInAlliance); }
      if !(Outranks(me.role, members[target].role) && Outranks(me.role, role)) { return Some(RankTooLow); }
      members := members[target := Membership(me.alliance, role, if role == Member then {} else rights)];
      error := None;
    }

    method HandOver(actor: nat, target: nat) returns (error: Option<Error>)
      requires ReferencesHold(Tables(), actor)
      modifies this
      ensures Did(old(Tables()), Tables(), rules, Transfer(actor, target), error)
    {
      if actor == target { return Some(SelfTarget); }
      if actor !in members { return Some(NotAMember); }
      var a := members[actor].alliance;
      if members[actor].role != Founder { return Some(MissingRight); }
      if target !in members || members[target].alliance != a { return Some(TargetNotInAlliance); }
      members := members[actor := Membership(a, Member, {})];
      members := members[target := Membership(a, Founder, ALL_RIGHTS)];
      alliances := alliances[a := alliances[a].(founder := target)];
      error := None;
    }

    method DisbandAlliance(actor: nat) returns (error: Option<Error>)
      modifies this
      ensures Did(old(Tables()), Tables(), rules, Disband(actor), error)
    {
      if actor !in members { return Some(NotAMember); }
      var a := members[actor].alliance;
      if members[actor].role != Founder { return Some(MissingRight); }
      alliances := alliances - {a};
      members := map p | p in members && members[p].alliance != a :: members[p];
      invites := set i | i in invites && i.0 != a;
      pacts := map k | k in pacts && k.0 != a && k.1 != a :: pacts[k];
      error := None;
    }

    method ChangeDiplomacy(actor: nat, other: nat, stroke: Stroke) returns (error: Option<Error>)
      requires ReferencesHold(Tables(), actor)
      modifies this
      ensures Did(old(Tables()), Tables(), rules, SetDiplomacy(actor, other, stroke), error)
    {
      if actor !in members { return Some(NotAMember); }
      if !HasRight(members[actor], Diplomacy) { return Some(MissingRight); }
      var mine := members[actor].alliance;
      if mine == other { return Some(SelfDiplomacy); }
      var key := Pair(mine, other);
      var current := if key in pacts then Some(pacts[key]) else None;
      if stroke == Accept && current == Some(Pact(Confederation, Proposed, Some(mine))) {
        return Some(CannotAcceptOwnProposal);
      }
      var next := NextStance(current, stroke);
      if next.Refused? { return Some(next.error); }
      if next.pact.None? {
        pacts := pacts - {key};
        return None;
      }
      if other !in alliances { return Some(Backend); }
      var (stance, phase) := next.pact.value;
      pacts := pacts[key := Pact(stance, phase, if phase == Proposed && stance == Confederation then Some(mine) else None)];
      error := None;
    }

    /** Any command: it does what it does as a whole. If the tables were in order and every alliance had one
        founder, so they are and have; the command is carried out exactly if it is allowed, and has its
        effect, and a refusal changes nothing and says what is so. */
    method Handle(c: Command) returns (error: Option<Error>)
      requires Referenced(Tables())
      modifies this
      ensures Did(old(Tables()), Tables(), rules, c, error)
      ensures Referenced(Tables()) && (old(Valid()) ==> Valid())
      ensures old(Valid()) ==> Kept(old(Tables()), Tables(), rules, c, error)
    {
      WholeCommandsKeepReferences(Tables(), rules, c);
      if Valid() {
        WholeCommandsKeepOneFounder(Tables(), rules, c);
        CommandsKeepTheirPromise(Tables(), rules, c);
      }
      match c {
        case Found(actor, name, tag, embassy) => error := FoundAlliance(actor, name, tag, embassy);
        case InvitePlayer(actor, invitee) => error := InviteTo(actor, invitee);
        case RevokeInvite(actor, invitee) => error := Revoke(actor, invitee);
        case Respond(actor, alliance, accept, embassy) => error := RespondInvite(actor, alliance, accept, embassy);
        case Leave(actor) => error := LeaveAlliance(actor);
        case ExpelMember(actor, target) => error := Expel(actor, target);
        case SetRole(actor, target, role, rights) => error := SetRoleOf(actor, target, role, rights);
        case Transfer(actor, target) => error := HandOver(actor, target);
        case Disband(actor) => error := DisbandAlliance(actor);
        case SetDiplomacy(actor, other, stroke) => error := ChangeDiplomacy(actor, other, stroke);
      }
    }
  }
}
