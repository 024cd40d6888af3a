/** How invitations are issued and what they come to (app/auth.py, `invite_member` and `accept_invitation`). */
module Invitations {
  import opened Wrappers
  import opened Members

  /** The account of the email is an active member of the organization. */
  predicate ActiveMember(s: State, email: string, organization: nat) {
    email in s.usersByEmail && exists m <- s.memberships ::
      s.memberships[m].user == s.usersByEmail[email].id && s.memberships[m].organization == organization
      && s.memberships[m].active
  }

  /** An invitation to the organization is waiting for the email. */
  predicate Waiting(s: State, email: string, organization: nat, now: int) {
    exists i <- s.invitations ::
      s.invitations[i].organization == organization && s.invitations[i].email == email
      && s.invitations[i].status == Pending && now < s.invitations[i].expires
  }

  /** When an invitation is issued, and that it is then on file with the terms of the call and nothing else changes. */
  lemma IssuedIff(s: State, p: Principal, email: string, role: Role, invitation: nat, now: int, expires: int)
    ensures var r := InviteIn(s, p, email, role, invitation, now, expires);
            && (r.Success? <==>
                  && role != Owner && !(role == Admin && p.role == Admin)
                  && !ActiveMember(s, email, p.organization) && !Waiting(s, email, p.organization, now))
            && (r.Success? ==>
                  var issued := Invitation(p.organization, email, role, Pending, expires);
                  r.value == s.(invitations := s.invitations[invitation := issued]))
  {
  }

  /** Who may accept an invitation to this email: the account signed in with it; without signing in, a new account that
      gives its details, or the known one that gives none. */
  predicate MayAccept(s: State, email: string, caller: Option<Principal>, named: bool, given: bool, matching: bool) {
    var signedIn := if caller.Some? then caller.value.signedIn else None;
    match signedIn
    case Some(u) => u.email == email
    case None => if email in s.usersByEmail then !named && !given else named && given && matching
  }

  /** The account that accepts. */
  function AcceptingUser(s: State, email: string, caller: Option<Principal>, user: nat): nat {
    if caller.Some? && caller.value.signedIn.Some? then caller.value.signedIn.value.id
    else if email in s.usersByEmail then s.usersByEmail[email].id
    else user
  }

  /** When an invitation is accepted: it is pending and not expired, the caller may accept it and is no member yet. The
      account then joins the inviting organization, active and with the role it was invited for. */
  lemma AcceptedIff(s: State, invitation: nat, caller: Option<Principal>, named: bool, given: bool, matching: bool,
                    user: nat, membership: nat, now: int)
    requires FreshIds(s, Accept(invitation, caller, named, given, matching, user, membership, now))
    ensures var (t, refusal) := AcceptIn(s, invitation, caller, named, given, matching, user, membership, now);
            && (refusal.None? <==>
                  && invitation in s.invitations
                  && var i := s.invitations[invitation];
                     && i.status == Pending && now < i.expires && MayAccept(s, i.email, caller, named, given, matching)
                     && forall m <- s.memberships ::
                          s.memberships[m].organization == i.organization ==>
                            s.memberships[m].user != AcceptingUser(s, i.email, caller, user))
            && (refusal.None? ==>
                  var i := s.invitations[invitation];
                  var joined := Membership(i.organization, AcceptingUser(s, i.email, caller, user), i.role, true);
                  && t.memberships == s.memberships[membership := joined]
                  && t.invitations == s.invitations[invitation := i.(status := Accepted)])
            && (refusal.Some? ==> t.memberships == s.memberships)
  {
    hide FreshIds, IsMember;
    if invitation in s.invitations {
      var i := s.invitations[invitation];
      MemberIff(s.memberships, AcceptingUser(s, i.email, caller, user), i.organization);
    }
  }

  lemma MemberIff(memberships: map<nat, Membership>, user: nat, organization: nat)
    ensures IsMember(memberships, user, organization)
            <==> !(forall m <- memberships ::
                     memberships[m].organization == organization ==> memberships[m].user != user)
  {
  }

  /** The terms of an invitation never change, and it leaves the pending state once, to be accepted or expired. */
  predicate SameTerms(before: Invitation, after: Invitation) {
    && after.organization == before.organization && after.email == before.email && after.role == before.role
    && after.expires == before.expires
    && (before.status != Pending ==> after.status == before.status)
    && after.status in {before.status, Accepted, Expired}
  }

  lemma StepKeepsTerms(s: State, op: Op, i: nat)
    requires FreshIds(s, op) && i in s.invitations
    ensures i in Next(s, op).invitations && SameTerms(s.invitations[i], Next(s, op).invitations[i])
  {
    hide IsMember, ActiveOwners, AcceptIn;
    if op.Accept? {
      AcceptanceKeepsTerms(s, op.invitation, op.caller, op.named, op.passwordGiven, op.passwordsMatch, op.user,
                           op.membership, op.now, i);
    }
  }

  lemma AcceptanceKeepsTerms(s: State, invitation: nat, caller: Option<Principal>, named: bool, given: bool,
                             matching: bool, user: nat, membership: nat, now: int, i: nat)
    requires i in s.invitations
    ensures var (t, _) := AcceptIn(s, invitation, caller, named, given, matching, user, membership, now);
            i in t.invitations && SameTerms(s.invitations[i], t.invitations[i])
  {
    hide IsMember, Acceptor;
  }

  lemma {:induction false} TermsAreKept(s: State, ops: seq<Op>, i: nat)
    requires FreshAlong(s, ops) && i in s.invitations
    ensures i in Run(s, ops).invitations && SameTerms(s.invitations[i], Run(s, ops).invitations[i])
    decreases |ops|
  {
    hide Next, FreshIds;
    if ops != [] {
      StepKeepsTerms(s, ops[0], i);
      TermsAreKept(Next(s, ops[0]), ops[1..], i);
    }
  }

  /** Where memberships come from, and what may change in one. */
  lemma MembershipsComeFrom(s: State, op: Op, m: nat)
    requires FreshIds(s, op) && m in Next(s, op).memberships
    ensures var after := Next(s, op).memberships[m];
            if m in s.memberships then
              var before := s.memberships[m];
              && after.user == before.user && after.organization == before.organization
              && (after.role != before.role ==>
                    op.ChangeRole? && op.membership == m && op.role == after.role
                    && op.principal.organization == after.organization)
              && (after.active != before.active ==>
                    && (op.Disable? || op.Reactivate?) && op.membership == m && after.active == op.Reactivate?
                    && op.principal.organization == after.organization)
            else
              || (op.Register? && after == Membership(op.organization, op.user, Owner, true))
              || (op.Accept? && op.invitation in s.invitations
                  && var i := s.invitations[op.invitation];
                     i.status == Pending
                     && after == Membership(i.organization, AcceptingUser(s, i.email, op.caller, op.user), i.role,
                                            true))
  {
    hide ActiveOwners, IsMember;
    if op.Accept? {
      AcceptedIff(s, op.invitation, op.caller, op.named, op.passwordGiven, op.passwordsMatch, op.user, op.membership,
                  op.now);
    }
  }
}
