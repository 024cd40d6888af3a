/** Users, organizations and memberships (app/auth.py, `AuthStore`). Emails are given normalized. */
module Members {
  import opened Wrappers

  datatype Role = Owner | Admin | Reviewer | Viewer

  datatype User = User(id: nat, email: string)

  datatype Membership = Membership(organization: nat, user: nat, role: Role, active: bool)

  datatype InvitationStatus = Pending | Accepted | Expired | Canceled

  datatype Invitation = Invitation(organization: nat, email: string, role: Role, status: InvitationStatus, expires: int)

  datatype State = State(
    usersById: map<nat, User>,
    usersByEmail: map<string, User>,
    organizations: set<nat>,
    memberships: map<nat, Membership>,
    invitations: map<nat, Invitation>)

  /** The caller: a copy of a membership, and the signed-in user if there is one. */
  datatype Principal = Principal(organization: nat, user: nat, role: Role, signedIn: Option<User>)

  datatype Refusal =
    | EmailTaken | RegistrationConflict | NotFound | OwnerInvitation | AdminInvitation | AlreadyMember | AlreadyInvited
    | InvalidInvitation
    | NotPending | WrongAccount | DetailsRequired | SignInInstead | SelfElevation | LastOwner | OwnerOnly

  /** The keys of an organization's active owners; `_active_owner_count` is their number. */
  function ActiveOwners(memberships: map<nat, Membership>, organization: nat): set<nat> {
    set m <- memberships | memberships[m].organization == organization && memberships[m].role == Owner
    && memberships[m].active
  }

  predicate IsMember(memberships: map<nat, Membership>, user: nat, organization: nat) {
    exists m <- memberships :: memberships[m].user == user && memberships[m].organization == organization
  }

  datatype Op =
    | Register(email: string, user: nat, organization: nat, membership: nat, recordingFails: bool)
    | Invite(principal: Principal, email: string, role: Role, invitation: nat, now: int, expires: int)
    | Accept(invitation: nat, caller: Option<Principal>, named: bool, passwordGiven: bool, passwordsMatch: bool,
             user: nat, membership: nat, now: int)
    | ChangeRole(principal: Principal, membership: nat, role: Role)
    | Disable(principal: Principal, membership: nat)
    | Reactivate(principal: Principal, membership: nat)

  /** Identifiers come from `uuid4`. */
  predicate FreshIds(s: State, op: Op) {
    match op
    case Register(_, user, organization, membership, _) =>
      user !in s.usersById && organization !in s.organizations && membership !in s.memberships
      && forall m <- s.memberships :: s.memberships[m].organization != organization && s.memberships[m].user != user
    case Invite(_, _, _, invitation, _, _) => invitation !in s.invitations
    case Accept(_, _, _, _, _, user, membership, _) =>
      user !in s.usersById && membership !in s.memberships && forall m <- s.memberships :: s.memberships[m].user != user
    case _ => true
  }

  function RegisterIn(s: State, email: string, user: nat, organization: nat, membership: nat,
                      recordingFails: bool): Result<State, Refusal> {
    if email in s.usersByEmail then Failure(EmailTaken)
    else if recordingFails then Failure(RegistrationConflict)
    else
      var u := User(user, email);
      Success(s.(usersById := s.usersById[user := u], usersByEmail := s.usersByEmail[email := u],
                 organizations := s.organizations + {organization},
                 memberships := s.memberships[membership := Membership(organization, user, Owner, true)]))
  }

  function InviteIn(s: State, p: Principal, email: string, role: Role, invitation: nat, now: int,
                    expires: int): Result<State, Refusal> {
    if role == Owner then Failure(OwnerInvitation)
    else if p.role == Admin && role == Admin then Failure(AdminInvitation)
    else if email in s.usersByEmail && exists m <- s.memberships ::
              s.memberships[m].user == s.usersByEmail[email].id && s.memberships[m].organization == p.organization
              && s.memberships[m].active then
      Failure(AlreadyMember)
    else if exists i <- s.invitations ::
              s.invitations[i].organization == p.organization && s.invitations[i].email == email
              && s.invitations[i].status == Pending && s.invitations[i].expires > now then
      Failure(AlreadyInvited)
    else
      var invited := Invitation(p.organization, email, role, Pending, expires);
      Success(s.(invitations := s.invitations[invitation := invited]))
  }

  /** `_refresh_invitation_status`, which is kept even when the acceptance is then refused. */
  function Refreshed(s: State, invitation: nat, now: int): State {
    if invitation in s.invitations && s.invitations[invitation].status == Pending
       && s.invitations[invitation].expires <= now then
      s.(invitations := s.invitations[invitation := s.invitations[invitation].(status := Expired)])
    else s
  }

  /** Which account accepts, or why none does. A stranger to the store gets a new account. */
  function Acceptor(s: State, i: Invitation, principal: Option<Principal>, named: bool, passwordGiven: bool,
                    passwordsMatch: bool, user: nat):
    Result<User, Refusal>
  {
    if principal.Some? && principal.value.signedIn.Some? then
      if principal.value.signedIn.value.email != i.email then Failure(WrongAccount)
      else Success(principal.value.signedIn.value)
    else if i.email !in s.usersByEmail then
      if !named || !passwordGiven || !passwordsMatch then Failure(DetailsRequired) else Success(User(user, i.email))
    else if passwordGiven || named then Failure(SignInInstead)
    else Success(s.usersByEmail[i.email])
  }

  /** The state left behind, and the refusal if there is one: a new account is stored before the membership check. */
  function AcceptIn(s: State, invitation: nat, principal: Option<Principal>, named: bool, passwordGiven: bool,
                    passwordsMatch: bool,
                    user: nat, membership: nat, now: int): (State, Option<Refusal>)
  {
    if invitation !in s.invitations then (s, Some(InvalidInvitation))
    else
      var t := Refreshed(s, invitation, now);
      var i := t.invitations[invitation];
      if i.status != Pending then (t, Some(NotPending))
      else
        var acceptor := Acceptor(t, i, principal, named, passwordGiven, passwordsMatch, user);
        if acceptor.Failure? then (t, Some(acceptor.error))
        else
          var u := acceptor.value;
          var signedIn := principal.Some? && principal.value.signedIn.Some?;
          var known := if !signedIn && i.email !in t.usersByEmail
                       then t.(usersById := t.usersById[u.id := u],
                               usersByEmail := t.usersByEmail[u.email := u]) else t;
          if IsMember(known.memberships, u.id, i.organization) then (known, Some(AlreadyMember))
          else (known.(memberships := known.memberships[membership := Membership(i.organization, u.id, i.role, true)],
                       invitations := known.invitations[invitation := i.(status := Accepted)]), None)
  }

  function ChangeRoleIn(s: State, p: Principal, membership: nat, role: Role): Result<State, Refusal> {
    if membership !in s.memberships || s.memberships[membership].organization != p.organization then Failure(NotFound)
    else
      var m := s.memberships[membership];
      if m.user == p.user && role == Owner && p.role != Owner then Failure(SelfElevation)
      else if m.role == Owner && role != Owner && |ActiveOwners(s.memberships, p.organization)| <= 1 then
        Failure(LastOwner)
      else if role == Owner && p.role != Owner then Failure(OwnerOnly)
      else Success(s.(memberships := s.memberships[membership := m.(role := role)]))
  }

  function DisableIn(s: State, p: Principal, membership: nat): Result<State, Refusal> {
    if membership !in s.memberships || s.memberships[membership].organization != p.organization then Failure(NotFound)
    else
      var m := s.memberships[membership];
      if m.role == Owner && |ActiveOwners(s.memberships, p.organization)| <= 1 then Failure(LastOwner)
      else Success(s.(memberships := s.memberships[membership := m.(active := false)]))
  }

  function ReactivateIn(s: State, p: Principal, membership: nat): Result<State, Refusal> {
    if membership !in s.memberships || s.memberships[membership].organization != p.organization then Failure(NotFound)
    else Success(s.(memberships := s.memberships[membership := s.memberships[membership].(active := true)]))
  }

  function Or(s: State, r: Result<State, Refusal>): State {
    if r.Success? then r.value else s
  }

  function Next(s: State, op: Op): State {
    match op
    case Register(email, user, organization, membership, fails) =>
      Or(s, RegisterIn(s, email, user, organization, membership, fails))
    case Invite(p, email, role, invitation, now, expires) =>
      Or(s, InviteIn(s, p, email, role, invitation, now, expires))
    case Accept(invitation, p, named, given, matching, user, membership, now) =>
      AcceptIn(s, invitation, p, named, given, matching, user, membership, now).0
    case ChangeRole(p, membership, role) => Or(s, ChangeRoleIn(s, p, membership, role))
    case Disable(p, membership) => Or(s, DisableIn(s, p, membership))
    case Reactivate(p, membership) => Or(s, ReactivateIn(s, p, membership))
  }

  /** Every method keeps `Valid`: an owner for each organization, one membership per user in it, agreeing indexes. */
  class AuthStore {
    var state: State

    constructor ()
      ensures state == State(map[], map[], {}, map[], map[]) && Valid(state)
    {
      state := State(map[], map[], {}, map[], map[]);
    }

    /** Everything is inserted first; a failure while recording the registration takes it all out again. */
    method RegisterOwner(email: string, user: nat, organization: nat, membership: nat,
                         recordingFails: bool) returns (refusal: Option<Refusal>)
      requires Valid(state)
      requires FreshIds(state, Register(email, user, organization, membership, recordingFails))
      modifies this
      ensures Valid(state)
      ensures var r := RegisterIn(old(state), email, user, organization, membership, recordingFails);
              state == Or(old(state), r) && refusal == (if r.Failure? then Some(r.error) else None)
    {
      hide Valid, ActiveOwners;
      NextKeepsValid(state, Register(email, user, organization, membership, recordingFails));
      if email in state.usersByEmail { return Some(EmailTaken); }
      var before := state;
      var u := User(user, email);
      state := state.(usersById := state.usersById[user := u], usersByEmail := state.usersByEmail[email := u]);
      state := state.(organizations := state.organizations + {organization});
      state := state.(memberships := state.memberships[membership := Membership(organization, user, Owner, true)]);
      if recordingFails {
        state := state.(usersById := state.usersById - {user}, usersByEmail := state.usersByEmail - {email});
        state := state.(organizations := state.organizations - {organization},
                        memberships := state.memberships - {membership});
        assert state.usersById == before.usersById && state.usersByEmail == before.usersByEmail;
        assert state.organizations == before.organizations && state.memberships == before.memberships;
        return Some(RegistrationConflict);
      }
      return None;
    }

    method InviteMember(principal: Principal, email: string, role: Role, invitation: nat, now: int,
                        expires: int) returns (refusal: Option<Refusal>)
      requires Valid(state)
      requires FreshIds(state, Invite(principal, email, role, invitation, now, expires))
      modifies this
      ensures Valid(state)
      ensures var r := InviteIn(old(state), principal, email, role, invitation, now, expires);
              state == Or(old(state), r) && refusal == (if r.Failure? then Some(r.error) else None)
    {
      hide Valid, FreshIds, ActiveOwners;
      NextKeepsValid(state, Invite(principal, email, role, invitation, now, expires));
      if role == Owner { return Some(OwnerInvitation); }
      if principal.role == Admin && role == Admin { return Some(AdminInvitation); }
      if email in state.usersByEmail && exists m <- state.memberships ::
           state.memberships[m].user == state.usersByEmail[email].id
           && state.memberships[m].organization == principal.organization
           && state.memberships[m].active {
        return Some(AlreadyMember);
      }
      if exists i <- state.invitations ::
           state.invitations[i].organization == principal.organization && state.invitations[i].email == email
           && state.invitations[i].status == Pending && state.invitations[i].expires > now {
        return Some(AlreadyInvited);
      }
      var invited := Invitation(principal.organization, email, role, Pending, expires);
      state := state.(invitations := state.invitations[invitation := invited]);
      refusal := None;
    }

    method AcceptInvitation(invitation: nat, principal: Option<Principal>, named: bool, passwordGiven: bool,
                            passwordsMatch: bool,
                            user: nat, membership: nat, now: int) returns (refusal: Option<Refusal>)
      requires Valid(state)
      requires FreshIds(state,
                        Accept(invitation, principal, named, passwordGiven, passwordsMatch, user, membership, now))
      modifies this
      ensures Valid(state)
      ensures (state, refusal) == AcceptIn(old(state), invitation, principal, named, passwordGiven, passwordsMatch,
                                           user, membership, now)
    {
      hide Valid, FreshIds, ActiveOwners;
      NextKeepsValid(state, Accept(invitation, principal, named, passwordGiven, passwordsMatch, user, membership, now));
      if invitation !in state.invitations { return Some(InvalidInvitation); }
      if state.invitations[invitation].status == Pending && state.invitations[invitation].expires <= now {
        state :=
          state.(invitations := state.invitations[invitation := state.invitations[invitation].(status := Expired)]);
      }
      var i := state.invitations[invitation];
      if i.status != Pending { return Some(NotPending); }
      var u: User;
      if principal.Some? && principal.value.signedIn.Some? {
        u := principal.value.signedIn.value;
        if u.email != i.email { return Some(WrongAccount); }
      } else if i.email !in state.usersByEmail {
        if !named { return Some(DetailsRequired); }
        if !passwordGiven || !passwordsMatch { return Some(DetailsRequired); }
        u := User(user, i.email);
        state := state.(usersById := state.usersById[u.id := u], usersByEmail := state.usersByEmail[u.email := u]);
      } else {
        if passwordGiven || named { return Some(SignInInstead); }
        u := state.usersByEmail[i.email];
      }
      if IsMember(state.memberships, u.id, i.organization) { return Some(AlreadyMember); }
      state := state.(memberships := state.memberships[membership := Membership(i.organization, u.id, i.role, true)]);
      state := state.(invitations := state.invitations[invitation := i.(status := Accepted)]);
      refusal := None;
    }

    method ChangeMemberRole(principal: Principal, membership: nat, role: Role) returns (refusal: Option<Refusal>)
      requires Valid(state)
      modifies this
      ensures Valid(state)
      ensures var r := ChangeRoleIn(old(state), principal, membership, role);
              state == Or(old(state), r) && refusal == (if r.Failure? then Some(r.error) else None)
    {
      hide Valid, FreshIds, ActiveOwners;
      NextKeepsValid(state, ChangeRole(principal, membership, role));
      if membership !in state.memberships || state.memberships[membership].organization != principal.organization {
        return Some(NotFound);
      }
      var m := state.memberships[membership];
      if m.user == principal.user && role == Owner && principal.role != Owner { return Some(SelfElevation); }
      if m.role == Owner && role != Owner && |ActiveOwners(state.memberships, principal.organization)| <= 1 {
        return Some(LastOwner);
      }
      if role == Owner && principal.role != Owner { return Some(OwnerOnly); }
      state := state.(memberships := state.memberships[membership := m.(role := role)]);
      refusal := None;
    }

    method DisableMember(principal: Principal, membership: nat) returns (refusal: Option<Refusal>)
      requires Valid(state)
      modifies this
      ensures Valid(state)
      ensures var r := DisableIn(old(state), principal, membership);
              state == Or(old(state), r) && refusal == (if r.Failure? then Some(r.error) else None)
    {
      hide Valid, FreshIds, ActiveOwners;
      NextKeepsValid(state, Disable(principal, membership));
      if membership !in state.memberships || state.memberships[membership].organization != principal.organization {
        return Some(NotFound);
      }
      var m := state.memberships[membership];
      if m.role == Owner && |ActiveOwners(state.memberships, principal.organization)| <= 1 { return Some(LastOwner); }
      state := state.(memberships := state.memberships[membership := m.(active := false)]);
      refusal := None;
    }

    method ReactivateMember(principal: Principal, membership: nat) returns (refusal: Option<Refusal>)
      requires Valid(state)
      modifies this
      ensures Valid(state)
      ensures var r := ReactivateIn(old(state), principal, membership);
              state == Or(old(state), r) && refusal == (if r.Failure? then Some(r.error) else None)
    {
      hide Valid, FreshIds, ActiveOwners;
      NextKeepsValid(state, Reactivate(principal, membership));
      if membership !in state.memberships || state.memberships[membership].organization != principal.organization {
        return Some(NotFound);
      }
      state := state.(memberships := state.memberships[membership := state.memberships[membership].(active := true)]);
      refusal := None;
    }
  }

  // ----- what every sequence keeps -----

  ghost predicate Valid(s: State) {
    && (forall o <- s.organizations :: ActiveOwners(s.memberships, o) != {})
    && OnePerOrganization(s.memberships)
    && IndexesAgree(s)
    && (forall i <- s.invitations :: s.invitations[i].role != Owner)
  }

  ghost predicate OnePerOrganization(memberships: map<nat, Membership>) {
    forall a, b | a in memberships && b in memberships && memberships[a].user == memberships[b].user
                  && memberships[a].organization == memberships[b].organization :: a == b
  }

  /** The two user indexes hold the same users, each under its own key. */
  ghost predicate IndexesAgree(s: State) {
    && (forall id <- s.usersById :: s.usersById[id].id == id && s.usersById[id].email in s.usersByEmail
                                    && s.usersByEmail[s.usersById[id].email] == s.usersById[id])
    && (forall e <- s.usersByEmail :: s.usersByEmail[e].email == e && s.usersByEmail[e].id in s.usersById
                                      && s.usersById[s.usersByEmail[e].id] == s.usersByEmail[e])
  }

  /** Replacing one membership leaves its organization an owner, unless it was the only one and stops being one. */
  lemma OthersRemain(memberships: map<nat, Membership>, membership: nat, after: Membership, organization: nat)
    requires membership in memberships && after.organization == memberships[membership].organization
    requires ActiveOwners(memberships, organization) != {}
    requires memberships[membership].role != Owner || |ActiveOwners(memberships, organization)| > 1
             || (after.role == Owner && after.active)
             || after.organization != organization
    ensures ActiveOwners(memberships[membership := after], organization) != {}
  {
    var owners := ActiveOwners(memberships, organization);
    if owners - {membership} != {} {
      var other :| other in owners - {membership};
      assert other in ActiveOwners(memberships[membership := after], organization);
    } else {
      assert owners == {membership};
      assert membership in ActiveOwners(memberships[membership := after], organization);
    }
  }

  /** A new membership takes no owner away. */
  lemma OwnersStay(memberships: map<nat, Membership>, membership: nat, added: Membership, organization: nat)
    requires membership !in memberships && ActiveOwners(memberships, organization) != {}
    ensures ActiveOwners(memberships[membership := added], organization) != {}
  {
    var other :| other in ActiveOwners(memberships, organization);
    assert other in ActiveOwners(memberships[membership := added], organization);
  }

  lemma RegisterKeepsValid(s: State, email: string, user: nat, organization: nat, membership: nat)
    requires Valid(s) && FreshIds(s, Register(email, user, organization, membership, false))
    ensures Valid(Next(s, Register(email, user, organization, membership, false)))
  {
    if email !in s.usersByEmail {
      var t := Next(s, Register(email, user, organization, membership, false));
      assert membership in ActiveOwners(t.memberships, organization);
      forall o <- t.organizations ensures ActiveOwners(t.memberships, o) != {} {
        if o != organization { OwnersStay(s.memberships, membership, t.memberships[membership], o); }
      }
    }
  }

  lemma RefreshKeepsValid(s: State, invitation: nat, now: int)
    requires Valid(s)
    ensures Valid(Refreshed(s, invitation, now)) && Refreshed(s, invitation, now).memberships == s.memberships
  {
    hide ActiveOwners, OnePerOrganization;
  }

  /** A new account for an email the store does not know. */
  lemma AccountKeepsValid(s: State, u: User)
    requires Valid(s) && u.id !in s.usersById && u.email !in s.usersByEmail
    ensures Valid(s.(usersById := s.usersById[u.id := u], usersByEmail := s.usersByEmail[u.email := u]))
  {
    hide ActiveOwners, OnePerOrganization;
  }

  lemma JoiningKeepsValid(s: State, invitation: nat, i: Invitation, membership: nat, user: nat)
    requires Valid(s) && membership !in s.memberships && i.role != Owner
             && !IsMember(s.memberships, user, i.organization)
    ensures Valid(s.(memberships := s.memberships[membership := Membership(i.organization, user, i.role, true)],
                     invitations := s.invitations[invitation := i.(status := Accepted)]))
  {
    hide ActiveOwners;
    var joined := s.memberships[membership := Membership(i.organization, user, i.role, true)];
    forall o <- s.organizations ensures ActiveOwners(joined, o) != {} {
      OwnersStay(s.memberships, membership, joined[membership], o);
    }
    assert OnePerOrganization(joined);
  }

  lemma AcceptKeepsValid(s: State, op: Op)
    requires op.Accept? && Valid(s) && FreshIds(s, op)
    ensures Valid(Next(s, op))
  {
    hide ActiveOwners, OnePerOrganization, IndexesAgree, IsMember;
    RefreshKeepsValid(s, op.invitation, op.now);
    var t := Refreshed(s, op.invitation, op.now);
    if op.invitation in t.invitations && t.invitations[op.invitation].status == Pending {
      var i := t.invitations[op.invitation];
      var acceptor := Acceptor(t, i, op.caller, op.named, op.passwordGiven, op.passwordsMatch, op.user);
      if acceptor.Success? {
        var u := acceptor.value;
        var known := if !(op.caller.Some? && op.caller.value.signedIn.Some?) && i.email !in t.usersByEmail
                     then t.(usersById := t.usersById[u.id := u], usersByEmail := t.usersByEmail[u.email := u]) else t;
        if known != t { AccountKeepsValid(t, u); }
        if !IsMember(known.memberships, u.id, i.organization) {
          JoiningKeepsValid(known, op.invitation, i, op.membership, u.id);
        }
      }
    }
  }

  /** A change to one membership that keeps its user and organization, as changing a role, disabling and reactivating
      are. */
  lemma ReplacedKeepsValid(s: State, membership: nat, after: Membership)
    requires Valid(s) && membership in s.memberships
    requires var m := s.memberships[membership];
             && after.organization == m.organization && after.user == m.user
             && (m.role != Owner || |ActiveOwners(s.memberships, m.organization)| > 1
                 || (after.role == Owner && after.active))
    ensures Valid(s.(memberships := s.memberships[membership := after]))
  {
    hide ActiveOwners;
    forall o <- s.organizations ensures ActiveOwners(s.memberships[membership := after], o) != {} {
      OthersRemain(s.memberships, membership, after, o);
    }
  }

  /** Reactivating takes no owner away. */
  lemma ReactivateKeepsValid(s: State, p: Principal, membership: nat)
    requires Valid(s)
    ensures Valid(Next(s, Reactivate(p, membership)))
  {
    if ReactivateIn(s, p, membership).Success? {
      var after := s.memberships[membership].(active := true);
      ReplacedKeepsValid(s, membership, after);
    }
  }

  lemma NextKeepsValid(s: State, op: Op)
    requires Valid(s) && FreshIds(s, op)
    ensures Valid(Next(s, op))
  {
    match op
    case Register(email, user, organization, membership, fails) =>
      if !fails { RegisterKeepsValid(s, email, user, organization, membership); }
    case Invite(_, _, _, _, _, _) =>
    case Accept(_, _, _, _, _, _, _, _) => AcceptKeepsValid(s, op);
    case ChangeRole(p, membership, role) =>
      if ChangeRoleIn(s, p, membership, role).Success? {
        if s.memberships[membership].role == Owner && role == Owner {
        } else {
          ReplacedKeepsValid(s, membership, s.memberships[membership].(role := role));
        }
      }
    case Disable(p, membership) =>
      if DisableIn(s, p, membership).Success? {
        ReplacedKeepsValid(s, membership, s.memberships[membership].(active := false));
      }
    case Reactivate(p, membership) => ReactivateKeepsValid(s, p, membership);
  }

  function Run(s: State, ops: seq<Op>): State
    decreases |ops|
  {
    if ops == [] then s else Run(Next(s, ops[0]), ops[1..])
  }

  ghost predicate FreshAlong(s: State, ops: seq<Op>)
    decreases |ops|
  {
    ops == [] || (FreshIds(s, ops[0]) && FreshAlong(Next(s, ops[0]), ops[1..]))
  }

  /** However calls are interleaved, refused ones included: an organization, once registered, stays and always has an
      active owner, nobody holds two memberships in one organization, and the two user indexes never disagree. */
  lemma {:induction false} AlwaysAnOwner(s: State, ops: seq<Op>)
    requires Valid(s) && FreshAlong(s, ops)
    ensures var t := Run(s, ops);
            && s.organizations <= t.organizations
            && (forall o <- t.organizations :: exists m <- t.memberships ::
                  t.memberships[m].organization == o && t.memberships[m].role == Owner && t.memberships[m].active)
            && OnePerOrganization(t.memberships)
            && IndexesAgree(t)
    decreases |ops|
  {
    if ops == [] {
      forall o <- s.organizations
        ensures exists m <- s.memberships ::
                  s.memberships[m].organization == o && s.memberships[m].role == Owner && s.memberships[m].active
      {
        var m :| m in ActiveOwners(s.memberships, o);
      }
    } else {
      NextKeepsValid(s, ops[0]);
      assert s.organizations <= Next(s, ops[0]).organizations;
      AlwaysAnOwner(Next(s, ops[0]), ops[1..]);
    }
  }

  /** The only ways to become an owner: register the organization, or be given the role by one of its owners. No
      invitation leads there. */
  lemma OwnersComeFromOwners(s: State, op: Op, m: nat)
    requires Valid(s) && FreshIds(s, op)
    requires m in Next(s, op).memberships && Next(s, op).memberships[m].role == Owner
    requires !(m in s.memberships && s.memberships[m].role == Owner)
    ensures var made := Next(s, op).memberships[m];
            || (op.Register? && made.organization !in s.organizations
                && made.organization == op.organization && made.user == op.user)
            || (op.ChangeRole? && op.principal.role == Owner && op.principal.organization == made.organization)
  {
  }

  /** The guard asks for the role only: it also refuses to disable an owner who is disabled already,
      although another owner would then remain. It is needed exactly when that owner is active. */
  lemma LastOwnerGuardNeededIff(s: State, p: Principal, membership: nat)
    requires Valid(s) && p.organization in s.organizations
    requires DisableIn(s, p, membership) == Failure(LastOwner)
    ensures var forced := s.memberships[membership := s.memberships[membership].(active := false)];
            ActiveOwners(forced, p.organization) == {} <==> s.memberships[membership].active
  {
    var owners := ActiveOwners(s.memberships, p.organization);
    var forced := s.memberships[membership := s.memberships[membership].(active := false)];
    assert ActiveOwners(forced, p.organization) == owners - {membership};
    assert membership in owners <==> s.memberships[membership].active;
    var one :| one in owners;
    assert |owners - {one}| == |owners| - 1;
    assert owners == {one};
  }
}
