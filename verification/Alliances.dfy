/**
 Alliances: membership, roles and rights, and the diplomacy between alliances.

 A command queries its actor's membership, then the rest of what its checks need, and then issues its
 write. Each of the three is a step of its own here, so other commands may run in between; the write
 re-checks only what its SQL statement and the tables' constraints do.
 */
module Alliances {
  import opened Economy
  import opened Options

  datatype Role = Founder | Leader | Member
  datatype Right = Invite | Expel | Diplomacy | Announce | ManageRoles

  const ALL_RIGHTS: set<Right> := {Invite, Expel, Diplomacy, Announce, ManageRoles}

  datatype Membership = Membership(alliance: nat, role: Role, rights: set<Right>)
  datatype Alliance = Alliance(name: string, tag: string, founder: nat)

  datatype Stance = War | Confederation
  datatype Phase = Proposed | Active

  /** The stance between two alliances; Neutral is the absence of a pact. */
  datatype Pact = Pact(stance: Stance, phase: Phase, proposedBy: Option<nat>)

  /** The tables: one membership row per player, pacts keyed by the ordered pair of alliances. */
  datatype State = State(members: map<nat, Membership>, alliances: map<nat, Alliance>, invites: set<(nat, nat)>,
                         pacts: map<(nat, nat), Pact>, nextId: nat)

  const INIT := State(map[], map[], {}, map[], 0)

  datatype Rules = Rules(maxMembers: nat, joinEmbassy: nat, foundEmbassy: nat)

  datatype Error =
    | NotAMember | AlreadyInAlliance | TargetInAlliance | NotEligible | NameOrTagTaken | MissingRight | RankTooLow
    | SelfTarget | AtCap | NoInvite | AlreadyInvited | FounderMustTransfer | TargetNotInAlliance | BadRole
    | SelfDiplomacy | CannotAcceptOwnProposal | WarBlocksConfederation | NothingToAccept | Backend

  datatype Stroke = DeclareWar | Propose | Accept | Cancel

  /** The commands; `embassy` is the caller's highest Embassy level as read. */
  datatype Command =
    | Found(actor: nat, name: string, tag: string, embassy: nat)
    | InvitePlayer(actor: nat, invitee: nat)
    | RevokeInvite(actor: nat, invitee: nat)
    | Respond(actor: nat, alliance: nat, accept: bool, embassy: nat)
    | Leave(actor: nat)
    | ExpelMember(actor: nat, target: nat)
    | SetRole(actor: nat, target: nat, role: Role, rights: set<Right>)
    | Transfer(actor: nat, target: nat)
    | Disband(actor: nat)
    | SetDiplomacy(actor: nat, other: nat, stroke: Stroke)

  /** The writes behind the commands, with the values the checks settled. */
  datatype Write =
    | CreateAlliance(founder: nat, name: string, tag: string)
    | InsertInvite(alliance: nat, invitee: nat)
    | DeleteInvite(alliance: nat, invitee: nat)
    | AddMember(alliance: nat, player: nat)
    | RemoveMember(player: nat)
    | SetMemberRole(alliance: nat, target: nat, role: Role, rights: set<Right>)
    | TransferFounder(alliance: nat, from: nat, target: nat)
    | DeleteAlliance(alliance: nat)
    | SetPact(alliance: nat, other: nat, pact: Pact)
    | ClearPact(alliance: nat, other: nat)

  // ------------------------------------------------------------------ roles and rights

  function Rank(r: Role): nat {
    match r
    case Founder => 2
    case Leader => 1
    case Member => 0
  }

  predicate Outranks(a: Role, b: Role) { Rank(a) > Rank(b) }

  predicate HasRight(m: Membership, right: Right) {
    m.role == Founder || (m.role == Leader && right in m.rights)
  }

  /** Player `p` holds `right` in alliance `a`. */
  predicate Holds(s: State, p: nat, a: nat, right: Right) {
    p in s.members && s.members[p].alliance == a && HasRight(s.members[p], right)
  }

  function Roster(s: State, a: nat): set<nat> {
    set p | p in s.members && s.members[p].alliance == a
  }

  function MembershipOf(s: State, p: nat): Option<Membership> {
    if p in s.members then Some(s.members[p]) else None
  }

  predicate NameTaken(s: State, name: string, tag: string) {
    exists a :: a in s.alliances && (s.alliances[a].name == name || s.alliances[a].tag == tag)
  }

  // ------------------------------------------------------------------ diplomacy

  function Pair(a: nat, b: nat): (nat, nat) { if a <= b then (a, b) else (b, a) }

  datatype Next = To(pact: Option<(Stance, Phase)>) | Refused(error: Error)

  /** The stance machine. */
  function NextStance(current: Option<Pact>, stroke: Stroke): Next {
    match stroke
    case DeclareWar => To(Some((War, Active)))
    case Propose =>
      if current.None? then To(Some((Confederation, Proposed)))
      else if current.value.stance == War then Refused(WarBlocksConfederation)
      else To(Some((Confederation, current.value.phase)))
    case Accept =>
      if current.Some? && current.value.stance == Confederation then To(Some((Confederation, Active)))
      else Refused(NothingToAccept)
    case Cancel => To(None)
  }

  function PactOf(s: State, a: nat, b: nat): Option<Pact> {
    if Pair(a, b) in s.pacts then Some(s.pacts[Pair(a, b)]) else None
  }

  /** The alliances whose villages and incoming attacks `a` may see. */
  function Confederates(s: State, a: nat): set<nat> {
    set k | k in s.pacts && (k.0 == a || k.1 == a) && s.pacts[k].stance == Confederation && s.pacts[k].phase == Active
      :: if k.0 == a then k.1 else k.0
  }

  // ------------------------------------------------------------------ the checks

  datatype Verdict = Pass(write: Write) | Fail(error: Error)

  function ActorOf(c: Command): nat { c.actor }

  /** The actor is a member and holds the right. */
  function RightError(me: Option<Membership>, right: Right): Option<Error> {
    if me.None? then Some(NotAMember) else if !HasRight(me.value, right) then Some(MissingRight) else None
  }

  /** `target` is a member of the alliance. */
  predicate IsIn(s: State, target: nat, alliance: nat) {
    target in s.members && s.members[target].alliance == alliance
  }

  function Granted(role: Role, rights: set<Right>): set<Right> { if role == Member then {} else rights }

  function CheckExpel(s: State, actor: nat, target: nat, me: Option<Membership>): Verdict {
    if actor == target then Fail(SelfTarget)
    else if me.None? then Fail(NotAMember)
    else if !IsIn(s, target, me.value.alliance) then Fail(TargetNotInAlliance)
    else if !HasRight(me.value, Right.Expel) then Fail(MissingRight)
    else if !Outranks(me.value.role, s.members[target].role) then Fail(RankTooLow)
    else Pass(RemoveMember(target))
  }

  function CheckRole(s: State, actor: nat, target: nat, role: Role, rights: set<Right>, me: Option<Membership>): Verdict {
    if actor == target then Fail(SelfTarget)
    else if role == Founder then Fail(BadRole)
    else if RightError(me, ManageRoles).Some? then Fail(RightError(me, ManageRoles).value)
    else if !IsIn(s, target, me.value.alliance) then Fail(TargetNotInAlliance)
    else if !(Outranks(me.value.role, s.members[target].role) && Outranks(me.value.role, role)) then Fail(RankTooLow)
    else Pass(SetMemberRole(me.value.alliance, target, role, Granted(role, rights)))
  }

  function CheckTransfer(s: State, actor: nat, target: nat, me: Option<Membership>): Verdict {
    if actor == target then Fail(SelfTarget)
    else if me.None? then Fail(NotAMember)
    else if me.value.role != Founder then Fail(MissingRight)
    else if !IsIn(s, target, me.value.alliance) then Fail(TargetNotInAlliance)
    else Pass(TransferFounder(me.value.alliance, actor, target))
  }

  function CheckDiplomacy(s: State, other: nat, stroke: Stroke, me: Option<Membership>): Verdict {
    if RightError(me, Diplomacy).Some? then Fail(RightError(me, Diplomacy).value)
    else
      var mine := me.value.alliance;
      var current := PactOf(s, mine, other);
      if mine == other then Fail(SelfDiplomacy)
      else if stroke == Accept && current == Some(Pact(Confederation, Proposed, Some(mine))) then
        Fail(CannotAcceptOwnProposal)
      else
        match NextStance(current, stroke)
        case Refused(error) => Fail(error)
        case To(None) => Pass(ClearPact(mine, other))
        case To(Some(next)) =>
          var proposer := if next == (Confederation, Proposed) then Some(mine) else None;
          Pass(SetPact(mine, other, Pact(next.0, next.1, proposer)))
  }

  /** The checks of a command, on the actor's membership as read first (for a response, whether the
      invitation was there) and on the tables as read second. */
  function Checked(s: State, r: Rules, c: Command, me: Option<Membership>, invited: bool): Verdict {
    match c
    case Found(actor, name, tag, embassy) =>
      if me.Some? then Fail(AlreadyInAlliance)
      else if embassy < r.foundEmbassy then Fail(NotEligible)
      else Pass(CreateAlliance(actor, name, tag))
    case InvitePlayer(_, invitee) =>
      if RightError(me, Invite).Some? then Fail(RightError(me, Invite).value)
      else if invitee in s.members then Fail(TargetInAlliance)
      else Pass(InsertInvite(me.value.alliance, invitee))
    case RevokeInvite(_, invitee) =>
      if RightError(me, Invite).Some? then Fail(RightError(me, Invite).value)
      else Pass(DeleteInvite(me.value.alliance, invitee))
    case Respond(actor, alliance, accept, embassy) =>
      if !invited then Fail(NoInvite)
      else if !accept then Pass(DeleteInvite(alliance, actor))
      else if actor in s.members then Fail(AlreadyInAlliance)
      else if embassy < r.joinEmbassy then Fail(NotEligible)
      else Pass(AddMember(alliance, actor))
    case Leave(actor) =>
      if me.None? then Fail(NotAMember)
      else if me.value.role == Founder then Fail(FounderMustTransfer)
      else Pass(RemoveMember(actor))
    case ExpelMember(actor, target) => CheckExpel(s, actor, target, me)
    case SetRole(actor, target, role, rights) => CheckRole(s, actor, target, role, rights, me)
    case Transfer(actor, target) => CheckTransfer(s, actor, target, me)
    case Disband(actor) =>
      if me.None? then Fail(NotAMember)
      else if me.value.role != Founder then Fail(MissingRight)
      else Pass(DeleteAlliance(me.value.alliance))
    case SetDiplomacy(_, other, stroke) => CheckDiplomacy(s, other, stroke, me)
  }

  // ------------------------------------------------------------------ the writes

  /** What the statement's own guard, or a key of the tables, refuses. */
  function WriteError(s: State, r: Rules, w: Write): Option<Error> {
    match w
    case CreateAlliance(founder, name, tag) =>
      if NameTaken(s, name, tag) || founder in s.members then Some(NameOrTagTaken) else None
    case InsertInvite(a, invitee) =>
      if (a, invitee) in s.invites then Some(AlreadyInvited) else if a !in s.alliances then Some(Backend) else None
    case AddMember(a, p) =>
      if |Roster(s, a)| >= r.maxMembers then Some(AtCap)
      else if p in s.members then Some(AlreadyInAlliance)
      else if a !in s.alliances then Some(Backend)
      else None
    case SetPact(a, b, _) => if a !in s.alliances || b !in s.alliances then Some(Backend) else None
    case _ => None
  }

  /** Deleting an alliance cascades to its members, invitations and pacts. */
  function Erased(s: State, a: nat): State {
    s.(members := (map p | p in s.members && s.members[p].alliance != a :: s.members[p]),
       alliances := s.alliances - {a},
       invites := (set i | i in s.invites && i.0 != a),
       pacts := (map k | k in s.pacts && k.0 != a && k.1 != a :: s.pacts[k]))
  }

  /** `UPDATE alliance_members ... WHERE player_id = target AND alliance_id = alliance`. */
  function WithRole(s: State, alliance: nat, target: nat, role: Role, rights: set<Right>): State {
    if IsIn(s, target, alliance) then s.(members := s.members[target := Membership(alliance, role, rights)]) else s
  }

  function WithFounder(s: State, alliance: nat, founder: nat): State {
    if alliance in s.alliances then s.(alliances := s.alliances[alliance := s.alliances[alliance].(founder := founder)])
    else s
  }

  function Handed(s: State, alliance: nat, from: nat, target: nat): State {
    WithFounder(WithRole(WithRole(s, alliance, from, Member, {}), alliance, target, Founder, ALL_RIGHTS), alliance, target)
  }

  function Written(s: State, r: Rules, w: Write): State {
    if WriteError(s, r, w).Some? then s
    else
      match w
      case CreateAlliance(founder, name, tag) =>
        s.(members := s.members[founder := Membership(s.nextId, Founder, ALL_RIGHTS)],
           alliances := s.alliances[s.nextId := Alliance(name, tag, founder)],
           nextId := s.nextId + 1)
      case InsertInvite(a, invitee) => s.(invites := s.invites + {(a, invitee)})
      case DeleteInvite(a, invitee) => s.(invites := s.invites - {(a, invitee)})
      case AddMember(a, p) => s.(members := s.members[p := Membership(a, Member, {})])
      case RemoveMember(p) => s.(members := s.members - {p})
      case SetMemberRole(a, target, role, rights) => WithRole(s, a, target, role, rights)
      case TransferFounder(a, from, target) => Handed(s, a, from, target)
      case DeleteAlliance(a) => Erased(s, a)
      case SetPact(a, b, pact) => s.(pacts := s.pacts[Pair(a, b) := pact])
      case ClearPact(a, b) => s.(pacts := s.pacts - {Pair(a, b)})
  }

  // ------------------------------------------------------------------ interleaved commands

  /** A command under way: it has read its actor's membership, or has passed its checks. */
  datatype Session =
    | Looked(command: Command, me: Option<Membership>, invited: bool)
    | Ready(write: Write)

  datatype Desk = Desk(tables: State, sessions: map<nat, Session>)

  datatype Op = Look(sid: nat, command: Command) | Check(sid: nat) | Commit(sid: nat)

  function DoLook(d: Desk, sid: nat, c: Command): Desk {
    var invited := c.Respond? && (c.alliance, c.actor) in d.tables.invites;
    d.(sessions := d.sessions[sid := Looked(c, MembershipOf(d.tables, ActorOf(c)), invited)])
  }

  function DoCheck(d: Desk, r: Rules, sid: nat): Desk {
    if !(sid in d.sessions && d.sessions[sid].Looked?) then d
    else
      var s := d.sessions[sid];
      match Checked(d.tables, r, s.command, s.me, s.invited)
      case Pass(write) => d.(sessions := d.sessions[sid := Ready(write)])
      case Fail(_) => d.(sessions := d.sessions - {sid})
  }

  /** The write; a player who has joined then still deletes the invitation, in a statement of its own. */
  function DoCommit(d: Desk, r: Rules, sid: nat): Desk {
    if !(sid in d.sessions && d.sessions[sid].Ready?) then d
    else
      var w := d.sessions[sid].write;
      var rest := if w.AddMember? && WriteError(d.tables, r, w).None?
                  then d.sessions[sid := Ready(DeleteInvite(w.alliance, w.player))]
                  else d.sessions - {sid};
      Desk(Written(d.tables, r, w), rest)
  }

  function Step(d: Desk, r: Rules, op: Op): Desk {
    match op
    case Look(sid, c) => DoLook(d, sid, c)
    case Check(sid) => DoCheck(d, r, sid)
    case Commit(sid) => DoCommit(d, r, sid)
  }

  const EMPTY_DESK := Desk(INIT, map[])

  /** The desk after the first `k` steps. */
  function At(r: Rules, ops: seq<Op>, k: nat): Desk
    requires k <= |ops|
  {
    if k == 0 then EMPTY_DESK else Step(At(r, ops, k - 1), r, ops[k - 1])
  }

  /** A command with nobody in between: its checks, its write, and the deletion of an accepted
      invitation. */
  function Whole(s: State, r: Rules, c: Command): State {
    match Checked(s, r, c, MembershipOf(s, ActorOf(c)), c.Respond? && (c.alliance, c.actor) in s.invites)
    case Fail(_) => s
    case Pass(w) =>
      if w.AddMember? && WriteError(s, r, w).None?
      then Written(Written(s, r, w), r, DeleteInvite(w.alliance, w.player))
      else Written(s, r, w)
  }
}
